/** The configuration tables as one mutable database, and the operations that update it step by step. A
    transaction that fails part-way restores the tables it found. */
module ConfigDatabase {
  import opened Outcome
  import opened Domain
  import opened Sequences
  import opened ConfigStream
  import opened ConfigStore
  import opened ConfigTransactions
  import opened ConfigImports
  import opened ConfigReplay

  lemma FoundByHash(env: Env, st: State, v: nat, hash: string)
    requires Valid(env, st) && v in st.versions && st.versions[v].hash == Some(hash)
    ensures FindByHash(st, hash) == Some(v)
  {
    assert HashTaken(st, Some(hash), None);
  }

  method QueueRules(v: nat, imported: seq<ConfigRule>) returns (batch: seq<Statement>)
    ensures batch == Map(RuleInsert(v), imported)
  {
    batch := [];
    for i := 0 to |imported|
      invariant batch == Map(RuleInsert(v), imported[..i])
    {
      assert imported[..i + 1] == imported[..i] + [imported[i]];
      batch := batch + [InsertRuleRow(Some(v), Stored(imported[i]))];
    }
    assert imported[..|imported|] == imported;
  }

  /** The switch over the rules of a version in cmd/recon/main.go. */
  method SplitBySource(loaded: seq<ConfigRule>) returns (payments: seq<ConfigRule>, settlements: seq<ConfigRule>)
    ensures payments == Filter(OfSource(Payment), loaded) && settlements == Filter(OfSource(Settlement), loaded)
  {
    payments, settlements := [], [];
    for i := 0 to |loaded|
      invariant payments == Filter(OfSource(Payment), loaded[..i])
      invariant settlements == Filter(OfSource(Settlement), loaded[..i])
    {
      assert loaded[..i + 1] == loaded[..i] + [loaded[i]];
      FilterSnoc(OfSource(Payment), loaded[..i], loaded[i]);
      FilterSnoc(OfSource(Settlement), loaded[..i], loaded[i]);
      if loaded[i].source == Payment {
        payments := payments + [loaded[i]];
      } else if loaded[i].source == Settlement {
        settlements := settlements + [loaded[i]];
      }
    }
    assert loaded[..|loaded|] == loaded;
  }

  datatype VersionRules = VersionRules(version: nat, payments: seq<ConfigRule>, settlements: seq<ConfigRule>)

  class Database {
    const env: Env
    var versions: map<nat, Version>
    var files: set<File>
    var links: map<LinkId, File>
    var rules: seq<RuleRow>
    var fixes: set<FixRecord>
    var nextId: nat

    function Tables(): State
      reads this
    {
      State(versions, files, links, rules, fixes, nextId)
    }

    ghost predicate Consistent()
      reads this
    {
      Valid(env, Tables())
    }

    constructor (env: Env)
      ensures this.env == env && Tables() == EMPTY && Consistent()
    {
      this.env := env;
      versions, files, links, rules, fixes, nextId := map[], {}, map[], [], {}, 0;
    }

    method Restore(saved: State)
      modifies this
      ensures Tables() == saved
    {
      versions, files, links := saved.versions, saved.files, saved.links;
      rules, fixes, nextId := saved.rules, saved.fixes, saved.nextId;
    }

    // ----- The triggers

    /** reject_frozen_config_mutation, for the owner of the old or of the new row. */
    method RejectsChild(owner: Option<nat>) returns (rejected: bool)
      ensures rejected <==> FrozenParent(Tables(), owner)
    {
      rejected := false;
      if owner.Some? {
        if owner.value in versions {
          rejected := versions[owner.value].frozen;
        }
      }
    }

    /** set_canonical_config_hash, then reject_frozen_version_mutation, then the constraints. */
    method UpdateVersionRow(v: nat, row: Version) returns (ok: bool)
      modifies this`versions
      ensures UpdateVersion(env, old(Tables()), v, row) == if ok then Some(Tables()) else None
      ensures !ok ==> Tables() == old(Tables())
    {
      if v !in versions {
        return true;
      }
      var newRow := row;
      if !versions[v].frozen && row.frozen {
        newRow := row.(hash := Some(env.digest(VersionBytes(env, Tables(), v))));
      }
      if versions[v].frozen {
        return false;
      }
      if NameTaken(Tables(), newRow.name, Some(v)) || HashTaken(Tables(), newRow.hash, Some(v))
         || !Exists(Tables(), newRow.parent) || (newRow.frozen && newRow.hash.None?) {
        return false;
      }
      versions := versions[v := newRow];
      return true;
    }

    method InsertRuleRow(owner: Option<nat>, rule: StoredRule) returns (ok: bool)
      modifies this`rules
      ensures InsertRule(old(Tables()), owner, rule) == if ok then Some(Tables()) else None
      ensures !ok ==> Tables() == old(Tables())
    {
      var rejected := RejectsChild(owner);
      if rejected || !RuleAllowed(Tables(), rules, owner, rule) {
        return false;
      }
      rules := rules + [RuleRow(owner, rule)];
      return true;
    }

    method UpdateRuleRow(i: nat, owner: Option<nat>, rule: StoredRule) returns (ok: bool)
      modifies this`rules
      ensures UpdateRule(old(Tables()), i, owner, rule) == if ok then Some(Tables()) else None
      ensures !ok ==> Tables() == old(Tables())
    {
      if i >= |rules| {
        return true;
      }
      var oldRejected := RejectsChild(rules[i].version);
      var newRejected := RejectsChild(owner);
      if oldRejected || newRejected || !RuleAllowed(Tables(), Without(rules, i), owner, rule) {
        return false;
      }
      rules := rules[i := RuleRow(owner, rule)];
      return true;
    }

    method DeleteRuleRow(i: nat) returns (ok: bool)
      modifies this`rules
      ensures DeleteRule(old(Tables()), i) == if ok then Some(Tables()) else None
      ensures !ok ==> Tables() == old(Tables())
    {
      if i >= |rules| {
        return true;
      }
      var rejected := RejectsChild(rules[i].version);
      if rejected {
        return false;
      }
      rules := rules[..i] + rules[i + 1..];
      return true;
    }

    method UpdateLinkRow(id: LinkId, newId: LinkId, file: File) returns (ok: bool)
      modifies this`links
      ensures UpdateLink(old(Tables()), id, newId, file) == if ok then Some(Tables()) else None
      ensures !ok ==> Tables() == old(Tables())
    {
      if id !in links {
        return true;
      }
      var oldRejected := RejectsChild(Some(id.version));
      var newRejected := RejectsChild(Some(newId.version));
      var others := links - {id};
      if oldRejected || newRejected || !LinkAllowed(Tables(), others, newId, file) {
        return false;
      }
      links := others[newId := file];
      return true;
    }

    method InsertLinkRow(id: LinkId, file: File) returns (ok: bool)
      modifies this`links
      ensures InsertLink(old(Tables()), id, file) == if ok then Some(Tables()) else None
      ensures !ok ==> Tables() == old(Tables())
    {
      var rejected := RejectsChild(Some(id.version));
      if rejected || !LinkAllowed(Tables(), links, id, file) {
        return false;
      }
      links := links[id := file];
      return true;
    }

    method DeleteLinkRow(id: LinkId) returns (ok: bool)
      modifies this`links
      ensures DeleteLink(old(Tables()), id) == if ok then Some(Tables()) else None
      ensures !ok ==> Tables() == old(Tables())
    {
      var rejected := RejectsChild(Some(id.version));
      if id in links && rejected {
        return false;
      }
      links := links - {id};
      assert id !in old(links) ==> links == old(links);
      return true;
    }

    method InsertVersionRow(name: string, parent: Option<nat>) returns (ok: bool)
      modifies this`versions, this`nextId
      ensures InsertVersion(old(Tables()), name, parent) == if ok then Some(Tables()) else None
      ensures !ok ==> Tables() == old(Tables())
    {
      if NameTaken(Tables(), name, None) || !Exists(Tables(), parent) {
        return false;
      }
      versions, nextId := versions[nextId := Version(name, parent, false, None)], nextId + 1;
      return true;
    }

    method DeleteVersionRow(v: nat) returns (ok: bool)
      modifies this`versions, this`links, this`fixes
      ensures DeleteVersion(old(Tables()), v) == if ok then Some(Tables()) else None
      ensures !ok ==> Tables() == old(Tables())
    {
      if v !in versions {
        return true;
      }
      if versions[v].frozen || Referenced(Tables(), v) {
        return false;
      }
      versions := versions - {v};
      links := map l | l in links && l.version != v :: links[l];
      fixes := set f | f in fixes && f.version != v;
      return true;
    }

    /** The guarded DELETE of one defect. */
    method DeleteMatchingRows(v: nat, d: Defect) returns (ok: bool)
      modifies this`rules
      ensures DeleteMatching(old(Tables()), v, d) == if ok then Some(Tables()) else None
      ensures !ok ==> Tables() == old(Tables())
    {
      var rejected := RejectsChild(Some(v));
      if rejected && Hits(Tables(), v, d) > 0 {
        return false;
      }
      rules := Filter(Missed(v, d), rules);
      return true;
    }

    /** The guarded UPDATE of one defect. */
    method RetargetMatchingRows(v: nat, d: Defect) returns (ok: bool)
      modifies this`rules
      ensures RetargetMatching(old(Tables()), v, d) == if ok then Some(Tables()) else None
      ensures !ok ==> Tables() == old(Tables())
    {
      var rejected := RejectsChild(Some(v));
      if rejected && Hits(Tables(), v, d) > 0 {
        return false;
      }
      rules := Map(RetargetRow(v, d), rules);
      return true;
    }

    method RecordFixRow(v: nat, d: Defect) returns (ok: bool)
      modifies this`fixes
      ensures RecordFix(old(Tables()), v, d) == if ok then Some(Tables()) else None
      ensures !ok ==> Tables() == old(Tables())
    {
      if v !in versions || FixRecord(v, d) in fixes {
        return false;
      }
      fixes := fixes + {FixRecord(v, d)};
      return true;
    }

    // ----- Statements

    method Execute(s: Statement) returns (ok: bool)
      modifies this
      ensures Exec(env, old(Tables()), s) == if ok then Some(Tables()) else None
      ensures !ok ==> Tables() == old(Tables())
    {
      match s {
        case InsertVersionRow(name, parent) => ok := InsertVersionRow(name, parent);
        case UpdateVersionRow(v, row) => ok := UpdateVersionRow(v, row);
        case DeleteVersionRow(v) => ok := DeleteVersionRow(v);
        case InsertFileRow(file) =>
          files := files + {file};
          ok := true;
        case InsertLinkRow(id, file) => ok := InsertLinkRow(id, file);
        case UpdateLinkRow(id, newId, file) => ok := UpdateLinkRow(id, newId, file);
        case DeleteLinkRow(id) => ok := DeleteLinkRow(id);
        case InsertRuleRow(owner, rule) => ok := InsertRuleRow(owner, rule);
        case UpdateRuleRow(i, owner, rule) => ok := UpdateRuleRow(i, owner, rule);
        case DeleteRuleRow(i) => ok := DeleteRuleRow(i);
        case DeleteMatchingRows(v, d) => ok := DeleteMatchingRows(v, d);
        case RetargetMatchingRows(v, d) => ok := RetargetMatchingRows(v, d);
        case RecordFixRow(v, d) => ok := RecordFixRow(v, d);
      }
    }

    /** A batch stops at its first error; the caller then rolls back. */
    method ExecuteBatch(statements: seq<Statement>) returns (ok: bool)
      modifies this
      ensures ExecAll(env, old(Tables()), statements) == if ok then Some(Tables()) else None
    {
      for i := 0 to |statements|
        invariant ExecAll(env, Tables(), statements[i..]) == ExecAll(env, old(Tables()), statements)
      {
        assert statements[i..][0] == statements[i] && statements[i..][1..] == statements[i + 1..];
        ok := Execute(statements[i]);
        if !ok {
          return;
        }
      }
      return true;
    }

    // ----- EnsureFrozenConfig

    /** From absent to DRAFT to FROZEN. */
    method ImportNew(name: string, hash: string, payment: string, settlement: string, imported: seq<ConfigRule>) returns (ok: bool)
      modifies this
      ensures ExecAll(env, old(Tables()), ImportStatements(old(nextId), name, hash, payment, settlement, imported)) ==
        if ok then Some(Tables()) else None
      ensures !ok ==> Tables() == old(Tables())
    {
      var saved, v := Tables(), nextId;
      ImportChain(env, saved, v, name, hash, payment, settlement, imported);
      ok := ExecuteBatch([Statement.InsertVersionRow(name, None)]);
      if ok {
        ok := ExecuteBatch(LinkInserts(v, PaymentConfig, payment));
      }
      if ok {
        ok := ExecuteBatch(LinkInserts(v, SettlementConfig, settlement));
      }
      if ok {
        var batch := QueueRules(v, imported);
        ok := ExecuteBatch(batch);
      }
      if ok {
        ok := ExecuteBatch([Statement.UpdateVersionRow(v, Version(name, None, true, Some(hash)))]);
      }
      if !ok {
        Restore(saved);
      }
    }

    method SelectByName(name: string) returns (found: Option<nat>)
      requires Consistent()
      ensures found == FindByName(Tables(), name)
    {
      found := None;
      if v :| v in versions && versions[v].name == name {
        FoundByName(env, Tables(), v);
        found := Some(v);
      }
    }

    method SelectByHash(hash: string) returns (found: Option<nat>)
      requires Consistent()
      ensures found == FindByHash(Tables(), hash)
    {
      found := None;
      if v :| v in versions && versions[v].hash == Some(hash) {
        FoundByHash(env, Tables(), v, hash);
        found := Some(v);
      }
    }

    method EnsureFrozenConfig(given: string, payment: string, settlement: string, imported: seq<ConfigRule>)
        returns (id: Option<nat>)
      requires Consistent()
      modifies this
      ensures Consistent() && FrozenKept(old(Tables()), Tables())
      ensures match Import(env, old(Tables()), given, payment, settlement, imported)
        case None => id == None && Tables() == old(Tables())
        case Some(r) => id == Some(r.version) && Tables() == r.state
    {
      if payment == "" || settlement == "" {
        return None;
      }
      var bytes := WriteStream([payment, settlement], HashParts, imported);
      var hash := env.digest(bytes);
      var name := ImportName(given, hash);
      var named := SelectByName(name);
      if named.Some? {
        var v := named.value;
        ImportOfName(env, Tables(), given, payment, settlement, imported, v);
        return if versions[v].frozen && versions[v].hash == Some(hash) then Some(v) else None;
      }
      var hashed := SelectByHash(hash);
      if hashed.Some? {
        ImportOfHash(env, Tables(), given, payment, settlement, imported, hashed.value);
        return if versions[hashed.value].frozen then hashed else None;
      }
      ghost var before := Tables();
      var v := nextId;
      var ok := ImportNew(name, hash, payment, settlement, imported);
      if ok {
        ImportKeeps(env, before, given, payment, settlement, imported);
        return Some(v);
      }
      return None;
    }

    /** Only a frozen version may be looked up for a run. */
    method LookupConfigVersion(name: string) returns (id: Option<nat>)
      requires Consistent()
      ensures id.Some? <==> exists v :: v in versions && versions[v].name == name && versions[v].frozen
      ensures id.Some? ==> id.value in versions && versions[id.value].name == name && versions[id.value].frozen
    {
      var found := SelectByName(name);
      if found.None? {
        return None;
      }
      if !versions[found.value].frozen {
        FoundByName(env, Tables(), found.value);
        return None;
      }
      return found;
    }

    /** The rows of a version, ordered by source and line, each with NULLs read as empty text. */
    method LoadRules(v: nat) returns (loaded: seq<ConfigRule>)
      requires TotalOrder(env.collation)
      ensures ReadsBack(env.collation, Tables(), v, loaded)
    {
      var rows := Sort(RulesOf(Tables(), v), SourceLineOrder(env.collation));
      SourceLineWeak(env.collation);
      SortSorts(RulesOf(Tables(), v), SourceLineOrder(env.collation));
      loaded := [];
      for i := 0 to |rows|
        invariant loaded == Map(Loaded, rows[..i])
      {
        assert rows[..i + 1] == rows[..i] + [rows[i]];
        loaded := loaded + [Loaded(rows[i])];
      }
      assert rows[..|rows|] == rows;
    }

    /** The rules of a run by version name: those of a frozen version, split by source; a version that lacks the
        rules of a source is refused. */
    method LoadConfigVersion(name: string) returns (r: Option<VersionRules>)
      requires Consistent() && TotalOrder(env.collation)
      ensures r.Some? <==> SomeReplayable(Tables(), name)
      ensures r.Some? ==> Replayable(Tables(), name, r.value.version) && GivesRules(r.value)
    {
      var found := LookupConfigVersion(name);
      if found.None? {
        return None;
      }
      var v := found.value;
      ReplayableIff(env, Tables(), name, v);
      r := ReadVersion(v);
    }

    /** The rules of a version, unless it lacks those of a source. */
    method ReadVersion(v: nat) returns (r: Option<VersionRules>)
      requires TotalOrder(env.collation)
      ensures r.Some? <==> HasSource(Tables(), v, Payment) && HasSource(Tables(), v, Settlement)
      ensures r.Some? ==> r.value.version == v && GivesRules(r.value)
    {
      var loaded := LoadRules(v);
      var payments, settlements := SplitBySource(loaded);
      SomeOfSource(env.collation, Tables(), v, loaded, Payment);
      SomeOfSource(env.collation, Tables(), v, loaded, Settlement);
      if payments == [] || settlements == [] {
        return None;
      }
      return Some(VersionRules(v, payments, settlements));
    }

    ghost predicate GivesRules(r: VersionRules)
      reads this
    {
      exists loaded ::
        && ReadsBack(env.collation, Tables(), r.version, loaded)
        && r.payments == Filter(OfSource(Payment), loaded) && r.settlements == Filter(OfSource(Settlement), loaded)
    }

    // ----- The rule rows of Persist

    method StoreRunRules(v: nat, used: seq<ConfigRule>) returns (ok: bool)
      requires Consistent()
      modifies this
      ensures Consistent() && FrozenKept(old(Tables()), Tables())
      ensures StoreRules(old(Tables()), v, used) == if ok then Some(Tables()) else None
      ensures !ok ==> Tables() == old(Tables())
    {
      var saved := Tables();
      for i := 0 to |used|
        invariant StoreRules(Tables(), v, used[i..]) == StoreRules(saved, v, used)
      {
        assert used[i..][0] == used[i] && used[i..][1..] == used[i + 1..];
        if !HasRule(Tables(), v, used[i]) {
          ok := InsertRuleRow(Some(v), Stored(used[i]));
          if !ok {
            Restore(saved);
            return;
          }
        }
      }
      StoreRulesKeeps(env, saved, v, used);
      return true;
    }

    /** The configuration side of a run: its two data files, then its rules. */
    method StoreRunConfig(v: nat, payment: string, settlement: string, used: seq<ConfigRule>) returns (ok: bool)
      requires Consistent()
      modifies this
      ensures Consistent() && FrozenKept(old(Tables()), Tables())
      ensures StoreRun(old(Tables()), v, payment, settlement, used) == if ok then Some(Tables()) else None
      ensures !ok ==> Tables() == old(Tables())
    {
      ghost var before := Tables();
      var saved := files;
      InsertFileKeeps(env, Tables(), File(PaymentData, payment));
      files := files + {File(PaymentData, payment)};
      InsertFileKeeps(env, Tables(), File(SettlementData, settlement));
      files := files + {File(SettlementData, settlement)};
      ok := StoreRunRules(v, used);
      if ok {
        StoreRunKeeps(env, before, v, payment, settlement, used);
      } else {
        files := saved;
        assert Tables() == before;
      }
    }

    // ----- The procedures of migration 003

    method CloneConfigVersion(parent: nat, name: string) returns (id: Option<nat>)
      requires Consistent()
      modifies this
      ensures Consistent() && FrozenKept(old(Tables()), Tables())
      ensures match Clone(env, old(Tables()), parent, name)
        case None => id == None && Tables() == old(Tables())
        case Some(st) => id == Some(old(nextId)) && Tables() == st
    {
      if parent !in versions {
        return None;
      }
      if !versions[parent].frozen {
        return None;
      }
      var saved, v := Tables(), nextId;
      var ok := ExecuteBatch(CloneStatements(Tables(), parent, name));
      if !ok {
        Restore(saved);
        return None;
      }
      ExecAllKeeps(env, saved, CloneStatements(saved, parent, name));
      return Some(v);
    }

    /** One defect: change the rows its guards hit, check their number, record it. */
    method ApplyGuarded(v: nat, d: Defect) returns (ok: bool)
      modifies this
      ensures Guarded(env, old(Tables()), v, d) == if ok then Some(Tables()) else None
    {
      ghost var before := Tables();
      var change := if d == F01 then Statement.DeleteMatchingRows(v, d) else Statement.RetargetMatchingRows(v, d);
      assert [change, Statement.RecordFixRow(v, d)] == [change] + [Statement.RecordFixRow(v, d)];
      ExecConcat(env, before, [change], [Statement.RecordFixRow(v, d)]);
      var count := Hits(Tables(), v, d);
      ok := ExecuteBatch([change]);
      if !ok || count != Expected(d) {
        return false;
      }
      ok := ExecuteBatch([Statement.RecordFixRow(v, d)]);
    }

    method ApplyMappingFixes(v: nat) returns (ok: bool)
      requires Consistent()
      modifies this
      ensures Consistent() && FrozenKept(old(Tables()), Tables())
      ensures ApplyFixes(env, old(Tables()), v) == if ok then Some(Tables()) else None
      ensures !ok ==> Tables() == old(Tables())
    {
      if v !in versions {
        return false;
      }
      if versions[v].frozen || Fixed(Tables(), v) {
        return false;
      }
      var saved := Tables();
      ok := ApplyGuarded(v, F01);
      if ok {
        ok := ApplyGuarded(v, F02);
      }
      if ok {
        ok := ApplyGuarded(v, F03);
      }
      if ok {
        if v in versions {
          ok := UpdateVersionRow(v, versions[v].(frozen := true, hash := Some(LegacyHash(env, Tables(), v))));
        } else {
          ok := false;
        }
      }
      if ok {
        ApplyFixesKeeps(env, saved, v);
      } else {
        Restore(saved);
      }
    }
  }
}
