/** Replaying a stored configuration: LoadRules of internal/store/config.go, the split by source in
    cmd/recon/main.go, and what a run on a frozen version finds there. */
module ConfigReplay {
  import opened Text
  import opened Outcome
  import opened Domain
  import opened Sequences
  import opened Encoding
  import opened ConfigStream
  import opened ConfigStore
  import opened ConfigTransactions
  import opened ConfigLoad
  import opened ConfigImports

  // ----- LoadRules

  predicate SourceLineLess(before: Order, s: string, line: nat, s': string, line': nat) {
    if s != s' then before(s, s') else line < line'
  }

  /** ORDER BY source, origin_line: the order the database gives rows of one source and line is not fixed. */
  function SourceLineOrder(before: Order): (StoredRule, StoredRule) -> bool {
    (a: StoredRule, b: StoredRule) => SourceLineLess(before, SourceText(a.source), a.originLine, SourceText(b.source), b.originLine)
  }

  function LineOrder(): (ConfigRule, ConfigRule) -> bool {
    (a: ConfigRule, b: ConfigRule) => a.originLine < b.originLine
  }

  /** What LoadRules may return for a version. */
  ghost predicate ReadsBack(before: Order, st: State, v: nat, loaded: seq<ConfigRule>) {
    exists rows :: IsSortOf(rows, RulesOf(st, v), SourceLineOrder(before)) && loaded == Map(Loaded, rows)
  }

  lemma SourceLineWeak(before: Order)
    requires TotalOrder(before)
    ensures StrictWeakOrder(SourceLineOrder(before))
  {
    var less := SourceLineOrder(before);
    assert forall a, b :: less(a, b) == SourceLineLess(before, SourceText(a.source), a.originLine, SourceText(b.source), b.originLine);
    forall a, b, c
      ensures less(a, b) && less(b, c) ==> less(a, c)
      ensures !less(a, b) && !less(b, c) ==> !less(a, c)
    {
      SourceLineTriple(before, SourceText(a.source), a.originLine, SourceText(b.source), b.originLine, SourceText(c.source), c.originLine);
    }
  }

  lemma SourceLineTriple(before: Order, s: string, i: nat, t: string, j: nat, u: string, k: nat)
    requires TotalOrder(before)
    ensures SourceLineLess(before, s, i, t, j) && SourceLineLess(before, t, j, u, k) ==> SourceLineLess(before, s, i, u, k)
    ensures !SourceLineLess(before, s, i, t, j) && !SourceLineLess(before, t, j, u, k) ==> !SourceLineLess(before, s, i, u, k)
  {
  }

  function OfSource(s: Source): ConfigRule -> bool {
    (r: ConfigRule) => r.source == s
  }

  /** Line numbers grow along the rules, as they do along the records of a file. */
  predicate LinesGrow(rules: seq<ConfigRule>) {
    forall i, j | 0 <= i < j < |rules| :: rules[i].originLine < rules[j].originLine
  }

  /** The rules read back for one source are in line order. */
  lemma LoadedInLineOrder(before: Order, rows: seq<StoredRule>, s: Source)
    requires SortedBy(rows, SourceLineOrder(before))
    ensures SortedBy(Filter(OfSource(s), Map(Loaded, rows)), LineOrder())
  {
    var loaded := Map(Loaded, rows);
    var less := (a: ConfigRule, b: ConfigRule) =>
      SourceLineLess(before, SourceText(a.source), a.originLine, SourceText(b.source), b.originLine);
    forall i, j | 0 <= i < j < |loaded|
      ensures !less(loaded[j], loaded[i])
    {
      assert !SourceLineOrder(before)(rows[j], rows[i]);
    }
    FilterSorted(OfSource(s), loaded, less);
    var own := Filter(OfSource(s), loaded);
    forall i, j | 0 <= i < j < |own|
      ensures !LineOrder()(own[j], own[i])
    {
      assert own[i] in own && own[j] in own && !less(own[j], own[i]);
    }
  }

  lemma GrowingLinesSort(rules: seq<ConfigRule>)
    requires LinesGrow(rules)
    ensures SortedBy(rules, LineOrder()) && Separates(rules, LineOrder())
  {
    forall x, y | x in rules && y in rules && !LineOrder()(x, y) && !LineOrder()(y, x)
      ensures x == y
    {
      var i :| 0 <= i < |rules| && rules[i] == x;
      var j :| 0 <= j < |rules| && rules[j] == y;
      assert i == j;
    }
  }

  /** When the rows of a version read as these rules, LoadRules gives the rules of each source in their order,
      however the database breaks ties. */
  lemma ReadBackSource(before: Order, st: State, v: nat, loaded: seq<ConfigRule>, rules: seq<ConfigRule>, s: Source)
    requires ReadsBack(before, st, v, loaded)
    requires multiset(Map(Loaded, RulesOf(st, v))) == multiset(rules)
    requires LinesGrow(Filter(OfSource(s), rules))
    ensures Filter(OfSource(s), loaded) == Filter(OfSource(s), rules)
  {
    var rows: seq<StoredRule> :| IsSortOf(rows, RulesOf(st, v), SourceLineOrder(before)) && loaded == Map(Loaded, rows);
    MapMultiset(Loaded, rows, RulesOf(st, v));
    FilterPermutation(OfSource(s), loaded, rules);
    LoadedInLineOrder(before, rows, s);
    GrowingLinesSort(Filter(OfSource(s), rules));
    SortedUnique(Filter(OfSource(s), rules), Filter(OfSource(s), loaded), LineOrder());
  }

  predicate HasSource(st: State, v: nat, s: Source) {
    exists row :: row in RulesOf(st, v) && row.source == s
  }

  lemma SomeLoaded(rows: seq<StoredRule>, s: Source)
    ensures Filter(OfSource(s), Map(Loaded, rows)) != [] <==> exists row :: row in rows && row.source == s
  {
    var loaded := Map(Loaded, rows);
    if row :| row in rows && row.source == s {
      var i :| 0 <= i < |rows| && rows[i] == row;
      assert loaded[i] in loaded && loaded[i] in Filter(OfSource(s), loaded);
    }
    if Filter(OfSource(s), loaded) != [] {
      var r := Filter(OfSource(s), loaded)[0];
      assert r in Filter(OfSource(s), loaded);
      var i :| 0 <= i < |loaded| && loaded[i] == r;
      assert rows[i] in rows;
    }
  }

  /** A rule of a source is read back exactly when the version has one. */
  lemma SomeOfSource(before: Order, st: State, v: nat, loaded: seq<ConfigRule>, s: Source)
    requires ReadsBack(before, st, v, loaded)
    ensures Filter(OfSource(s), loaded) != [] <==> HasSource(st, v, s)
  {
    var rows: seq<StoredRule> :| IsSortOf(rows, RulesOf(st, v), SourceLineOrder(before)) && loaded == Map(Loaded, rows);
    SomeLoaded(rows, s);
    SameMembers(rows, RulesOf(st, v));
  }

  lemma SameMembers<T>(a: seq<T>, b: seq<T>)
    requires multiset(a) == multiset(b)
    ensures forall x :: x in a <==> x in b
  {
    forall x
      ensures x in a <==> x in b
    {
      assert x in multiset(a) <==> x in multiset(b);
    }
  }

  /** The version has this name, is frozen, and has rules of both sources. */
  predicate Replayable(st: State, name: string, v: nat) {
    IsFrozen(st, v) && st.versions[v].name == name && HasSource(st, v, Payment) && HasSource(st, v, Settlement)
  }

  ghost predicate SomeReplayable(st: State, name: string) {
    exists v :: Replayable(st, name, v)
  }

  /** Names are unique, so one version decides. */
  lemma ReplayableIff(env: Env, st: State, name: string, v: nat)
    requires Valid(env, st) && IsFrozen(st, v) && st.versions[v].name == name
    ensures SomeReplayable(st, name) <==> HasSource(st, v, Payment) && HasSource(st, v, Settlement)
  {
    if SomeReplayable(st, name) {
      var w :| Replayable(st, name, w);
      FoundByName(env, st, v);
      FoundByName(env, st, w);
    } else {
      assert !Replayable(st, name, v);
    }
  }

  // ----- After an import

  /** Rules of both sources, payments first, as the program hands them to EnsureFrozenConfig. */
  predicate BothSources(pr: seq<ConfigRule>, sr: seq<ConfigRule>) {
    && (forall r | r in pr :: r.source == Payment) && (forall r | r in sr :: r.source == Settlement)
    && LinesGrow(pr) && LinesGrow(sr)
  }

  lemma SourcesSplit(pr: seq<ConfigRule>, sr: seq<ConfigRule>)
    requires BothSources(pr, sr)
    ensures Filter(OfSource(Payment), pr + sr) == pr && Filter(OfSource(Settlement), pr + sr) == sr
  {
    FilterConcat(OfSource(Payment), pr, sr);
    FilterConcat(OfSource(Settlement), pr, sr);
    FilterAll(OfSource(Payment), pr);
    FilterNone(OfSource(Payment), sr);
    FilterNone(OfSource(Settlement), pr);
    FilterAll(OfSource(Settlement), sr);
  }

  function Reread(): ConfigRule -> ConfigRule {
    (r: ConfigRule) => Loaded(Stored(r))
  }

  lemma RereadBoth(pr: seq<ConfigRule>, sr: seq<ConfigRule>)
    requires BothSources(pr, sr)
    ensures BothSources(Map(Reread(), pr), Map(Reread(), sr))
    ensures Map(Loaded, Map(Stored, pr + sr)) == Map(Reread(), pr) + Map(Reread(), sr)
  {
    MapMap(Loaded, Stored, Reread(), pr + sr);
    MapConcat(Reread(), pr, sr);
  }

  lemma RereadSame(rules: seq<ConfigRule>)
    ensures Map(Reread(), rules) == rules <==> forall r | r in rules :: !HasBlankField(r)
  {
    forall i | 0 <= i < |rules|
      ensures Map(Reread(), rules)[i] == rules[i] <==> !HasBlankField(rules[i])
    {
      StoredRoundTrip(rules[i]);
    }
    if Map(Reread(), rules) == rules {
      assert forall i | 0 <= i < |rules| :: Map(Reread(), rules)[i] == rules[i];
    }
    assert forall r | r in rules :: exists i :: 0 <= i < |rules| && rules[i] == r;
    if forall r | r in rules :: !HasBlankField(r) {
      assert forall i | 0 <= i < |rules| :: rules[i] in rules;
    }
  }

  lemma NewVersionKept(env: Env, st: State, given: string, payment: string, settlement: string, rules: seq<ConfigRule>,
      history: seq<Transaction>)
    requires Valid(env, st) && Import(env, st, given, payment, settlement, rules).Some?
    requires Import(env, st, given, payment, settlement, rules).value.version !in st.versions
    ensures var imported := Import(env, st, given, payment, settlement, rules).value;
      var later := Run(env, imported.state, history);
      IsFrozen(later, imported.version) && RulesOf(later, imported.version) == Map(Stored, rules)
  {
    var imported := Import(env, st, given, payment, settlement, rules).value;
    ImportStores(env, st, given, payment, settlement, rules);
    ImportKeeps(env, st, given, payment, settlement, rules);
    FrozenForever(env, imported.state, history);
    assert KeptVersion(imported.state, Run(env, imported.state, history), imported.version);
  }

  /** Reading back a version that an import made, after any history, gives for each source the imported rules in
      configuration order, with blank optional fields emptied: the imported rules themselves exactly when no
      optional field is blank but not empty. */
  lemma ReadBackIff(env: Env, st: State, given: string, payment: string, settlement: string, pr: seq<ConfigRule>,
      sr: seq<ConfigRule>, history: seq<Transaction>, loaded: seq<ConfigRule>)
    requires Valid(env, st) && BothSources(pr, sr)
    requires Import(env, st, given, payment, settlement, pr + sr).Some?
    requires Import(env, st, given, payment, settlement, pr + sr).value.version !in st.versions
    requires var imported := Import(env, st, given, payment, settlement, pr + sr).value;
      ReadsBack(env.collation, Run(env, imported.state, history), imported.version, loaded)
    ensures Filter(OfSource(Payment), loaded) == Map(Reread(), pr) && Filter(OfSource(Settlement), loaded) == Map(Reread(), sr)
    ensures Filter(OfSource(Payment), loaded) == pr <==> forall r | r in pr :: !HasBlankField(r)
    ensures Filter(OfSource(Settlement), loaded) == sr <==> forall r | r in sr :: !HasBlankField(r)
  {
    var imported := Import(env, st, given, payment, settlement, pr + sr).value;
    var later := Run(env, imported.state, history);
    NewVersionKept(env, st, given, payment, settlement, pr + sr, history);
    RereadBoth(pr, sr);
    SourcesSplit(Map(Reread(), pr), Map(Reread(), sr));
    ReadBackSource(env.collation, later, imported.version, loaded, Map(Reread(), pr) + Map(Reread(), sr), Payment);
    ReadBackSource(env.collation, later, imported.version, loaded, Map(Reread(), pr) + Map(Reread(), sr), Settlement);
    RereadSame(pr);
    RereadSame(sr);
  }

  // ----- A version found by its hash

  /** The linked files a version's text starts with. */
  function LinkHeaders(payment: Option<string>, settlement: Option<string>): (headers: seq<string>)
    ensures |headers| <= 2
    ensures |headers| == 2 ==> headers == [Coalesce(payment), Coalesce(settlement)] && payment.Some? && settlement.Some?
  {
    (if payment.Some? then [payment.value] else []) + (if settlement.Some? then [settlement.value] else [])
  }

  lemma FileStreamEncodes(payment: Option<string>, settlement: Option<string>)
    ensures FileStream(payment, settlement) == Encode(LinkHeaders(payment, settlement))
  {
    EncodeSnoc([], Coalesce(payment));
    EncodeSnoc([], Coalesce(settlement));
    EncodeSnoc([Coalesce(payment)], Coalesce(settlement));
    assert forall x: string :: [] + [x] == [x];
    assert [Coalesce(payment)] + [Coalesce(settlement)] == [Coalesce(payment), Coalesce(settlement)];
  }

  /** The text of any version, with or without linked files, is the Go stream of the rules read back. */
  lemma VersionBytesEncode(collation: Order, payment: Option<string>, settlement: Option<string>, rows: seq<StoredRule>)
    ensures DatabaseBytes(collation, payment, settlement, rows) ==
      Encode(LinkHeaders(payment, settlement) + Flatten(Map(HashParts, Map(Loaded, Sort(rows, RowOrder(collation))))))
  {
    var sorted := Sort(rows, RowOrder(collation));
    AggregateIsEncode(sorted);
    FileStreamEncodes(payment, settlement);
    EncodeConcat(LinkHeaders(payment, settlement), Flatten(Map(HashParts, Map(Loaded, sorted))));
  }

  lemma {:induction false} BlocksLength(rules: seq<ConfigRule>)
    ensures |Flatten(Map(HashParts, rules))| == WIDTH * |rules|
  {
    if rules != [] {
      MapTail(HashParts, rules);
      BlocksLength(rules[1..]);
    }
  }

  /** A stream fixes how many headers it has: each rule takes eleven parts. */
  lemma SameHeaderCount(headers: seq<string>, a: seq<ConfigRule>, headers': seq<string>, b: seq<ConfigRule>)
    requires |headers| <= 2 && |headers'| == 2
    requires Encode(headers + Flatten(Map(HashParts, a))) == Encode(headers' + Flatten(Map(HashParts, b)))
    ensures |headers| == 2
  {
    EncodeInjective(headers + Flatten(Map(HashParts, a)), headers' + Flatten(Map(HashParts, b)));
    BlocksLength(a);
    BlocksLength(b);
    assert |headers| - 2 == 11 * (|b| - |a|);
  }

  /** Equal texts mean equal files and, as far as they can be read back, equal rules. */
  lemma SameBytesSameContent(collation: Order, p: Option<string>, q: Option<string>, rows: seq<StoredRule>,
      payment: string, settlement: string, rules: seq<ConfigRule>)
    requires DatabaseBytes(collation, p, q, rows) == ConfigBytes(payment, settlement, rules)
    requires (forall r | r in rules :: KnownSource(r.source)) && (forall r | r in rows :: KnownSource(r.source))
    ensures p == Some(payment) && q == Some(settlement) && multiset(Map(Loaded, rows)) == multiset(rules)
  {
    var a, b := Map(Loaded, Sort(rows, RowOrder(collation))), Sort(rules, RuleOrder(Less));
    VersionBytesEncode(collation, p, q, rows);
    SameHeaderCount(LinkHeaders(p, q), a, [payment, settlement], b);
    LayoutsFaithful();
    StreamBlocks(LinkHeaders(p, q), [payment, settlement], HashParts, a, b);
    assert LinkHeaders(p, q)[0] == payment && LinkHeaders(p, q)[1] == settlement;
    SourcesStayKnown(rows, rules, a, b, collation);
    SameBlocksSameRules(HashParts, a, b);
    MapMultiset(Loaded, Sort(rows, RowOrder(collation)), rows);
  }

  lemma SourcesStayKnown(rows: seq<StoredRule>, rules: seq<ConfigRule>, a: seq<ConfigRule>, b: seq<ConfigRule>, collation: Order)
    requires (forall r | r in rules :: KnownSource(r.source)) && (forall r | r in rows :: KnownSource(r.source))
    requires a == Map(Loaded, Sort(rows, RowOrder(collation))) && b == Sort(rules, RuleOrder(Less))
    ensures forall r | r in a + b :: KnownSource(r.source)
  {
    var sorted := Sort(rows, RowOrder(collation));
    forall r | r in a + b
      ensures KnownSource(r.source)
    {
      if r in a {
        var i :| 0 <= i < |a| && a[i] == r;
        assert sorted[i] in multiset(sorted);
        assert sorted[i] in rows;
      } else {
        assert r in multiset(b);
      }
    }
  }

  lemma RowsOfKnown(st: State, v: nat)
    requires ValidRules(st)
    ensures forall r | r in RulesOf(st, v) :: KnownSource(r.source)
  {
    var rows := Filter(InVersion(v), st.rules);
    forall r | r in RulesOf(st, v)
      ensures KnownSource(r.source)
    {
      var i :| 0 <= i < |rows| && RuleOf()(rows[i]) == r;
      assert rows[i] in st.rules;
    }
  }

  /** A frozen version whose stored hash is that of some content holds it, barring a collision. */
  lemma HashedContent(env: Env, st: State, v: nat, payment: string, settlement: string, rules: seq<ConfigRule>)
    requires Valid(env, st) && IsFrozen(st, v) && st.versions[v].hash == Some(ContentHash(env, payment, settlement, rules))
    requires NoCollision(env, VersionBytes(env, st, v), ConfigBytes(payment, settlement, rules))
    requires forall r | r in rules :: KnownSource(r.source)
    ensures multiset(Map(Loaded, RulesOf(st, v))) == multiset(rules)
  {
    RowsOfKnown(st, v);
    SameBytesSameContent(env.collation, LinkedSha(st, v, PaymentConfig), LinkedSha(st, v, SettlementConfig), RulesOf(st, v),
      payment, settlement, rules);
  }

  // ----- After any import of loaded files

  /** Records come in the order of their lines. */
  predicate RecordsInOrder(records: seq<Record>) {
    forall i, j | 0 <= i < j < |records| :: records[i].line < records[j].line
  }

  lemma LoadedBothSources(pp: string, ph: seq<string>, ps: seq<Record>, sp: string, sh: seq<string>, ss: seq<Record>)
    requires RecordsInOrder(ps) && RecordsInOrder(ss)
    ensures BothSources(Map(LoadedRule(Payment, pp, ph), ps), Map(LoadedRule(Settlement, sp, sh), ss))
  {
  }

  /** The rows of the version an import returned, new or found, read as the imported rules. */
  lemma ImportedContent(env: Env, st: State, given: string, payment: string, settlement: string, rules: seq<ConfigRule>)
    requires Valid(env, st) && Import(env, st, given, payment, settlement, rules).Some?
    requires forall r | r in rules :: !HasBlankField(r) && KnownSource(r.source)
    requires var i := Import(env, st, given, payment, settlement, rules).value;
      i.version in st.versions ==> NoCollision(env, VersionBytes(env, st, i.version), ConfigBytes(payment, settlement, rules))
    ensures var i := Import(env, st, given, payment, settlement, rules).value;
      && Valid(env, i.state) && IsFrozen(i.state, i.version)
      && multiset(Map(Loaded, RulesOf(i.state, i.version))) == multiset(rules)
  {
    var i := Import(env, st, given, payment, settlement, rules).value;
    ImportKeeps(env, st, given, payment, settlement, rules);
    if i.version in st.versions {
      FoundHasHash(env, st, given, payment, settlement, rules);
      HashedContent(env, st, i.version, payment, settlement, rules);
    } else {
      NewVersionKept(env, st, given, payment, settlement, rules, []);
      MapMap(Loaded, Stored, Reread(), rules);
      RereadSame(rules);
    }
  }

  lemma FoundHasHash(env: Env, st: State, given: string, payment: string, settlement: string, rules: seq<ConfigRule>)
    requires Valid(env, st) && Import(env, st, given, payment, settlement, rules).Some?
    requires Import(env, st, given, payment, settlement, rules).value.version in st.versions
    ensures var i := Import(env, st, given, payment, settlement, rules).value;
      && i.state == st && IsFrozen(st, i.version)
      && st.versions[i.version].hash == Some(ContentHash(env, payment, settlement, rules))
  {
    var hash := ContentHash(env, payment, settlement, rules);
    var named, hashed := FindByName(st, ImportName(given, hash)), FindByHash(st, hash);
    if named.Some? {
      ImportOfName(env, st, given, payment, settlement, rules, named.value);
    } else if hashed.Some? {
      ImportOfHash(env, st, given, payment, settlement, rules, hashed.value);
    }
  }

  /** The program's own files: after an import of what LoadConfig loaded, whether it made a version or found one,
      and after any history, LoadRules and the split by source give exactly the rules of each file. A run by
      version name therefore maps with the same rules as a run by files. */
  lemma ReadBackLoaded(env: Env, st: State, given: string, payment: string, settlement: string,
      pp: string, ph: seq<string>, ps: seq<Record>, sp: string, sh: seq<string>, ss: seq<Record>,
      history: seq<Transaction>, loaded: seq<ConfigRule>)
    requires Valid(env, st) && RecordsInOrder(ps) && RecordsInOrder(ss)
    requires var rules := LoadedRules(pp, ph, ps, sp, sh, ss);
      && Import(env, st, given, payment, settlement, rules).Some?
      && var i := Import(env, st, given, payment, settlement, rules).value;
      && (i.version in st.versions ==> NoCollision(env, VersionBytes(env, st, i.version), ConfigBytes(payment, settlement, rules)))
      && ReadsBack(env.collation, Run(env, i.state, history), i.version, loaded)
    ensures Filter(OfSource(Payment), loaded) == Map(LoadedRule(Payment, pp, ph), ps)
    ensures Filter(OfSource(Settlement), loaded) == Map(LoadedRule(Settlement, sp, sh), ss)
  {
    var pr, sr := Map(LoadedRule(Payment, pp, ph), ps), Map(LoadedRule(Settlement, sp, sh), ss);
    LoadedShape(pp, ph, ps, sp, sh, ss);
    LoadedBothSources(pp, ph, ps, sp, sh, ss);
    ImportedContent(env, st, given, payment, settlement, pr + sr);
    var i := Import(env, st, given, payment, settlement, pr + sr).value;
    FrozenForever(env, i.state, history);
    assert KeptVersion(i.state, Run(env, i.state, history), i.version);
    SourcesSplit(pr, sr);
    ReadBackSource(env.collation, Run(env, i.state, history), i.version, loaded, pr + sr, Payment);
    ReadBackSource(env.collation, Run(env, i.state, history), i.version, loaded, pr + sr, Settlement);
  }

  // ----- What a run finds under its version

  lemma HasRuleIff(st: State, v: nat, r: ConfigRule)
    ensures HasRule(st, v, r) <==> exists row :: row in RulesOf(st, v) && StoredKey(row) == StoredKey(Stored(r))
  {
    var own := Filter(InVersion(v), st.rules);
    if HasRule(st, v, r) {
      var i :| 0 <= i < |st.rules| && SameKey(st.rules[i], Some(v), Stored(r));
      assert st.rules[i] in own;
      var j :| 0 <= j < |own| && own[j] == st.rules[i];
      assert RulesOf(st, v)[j] in RulesOf(st, v);
    }
    if row :| row in RulesOf(st, v) && StoredKey(row) == StoredKey(Stored(r)) {
      var j :| 0 <= j < |own| && RuleOf()(own[j]) == row;
      assert own[j] in st.rules;
      var i :| 0 <= i < |st.rules| && st.rules[i] == own[j];
      assert SameKey(st.rules[i], Some(v), Stored(r));
    }
  }

  /** A frozen version keeps every rule it has. */
  lemma FoundForever(env: Env, st: State, v: nat, r: ConfigRule, history: seq<Transaction>)
    requires Valid(env, st) && IsFrozen(st, v) && HasRule(st, v, r)
    ensures IsFrozen(Run(env, st, history), v) && HasRule(Run(env, st, history), v, r)
  {
    FrozenForever(env, st, history);
    assert KeptVersion(st, Run(env, st, history), v);
    HasRuleIff(st, v, r);
    HasRuleIff(Run(env, st, history), v, r);
  }

  /** Every rule read back is found again. */
  lemma ReadRulesFound(before: Order, st: State, v: nat, loaded: seq<ConfigRule>, r: ConfigRule)
    requires ReadsBack(before, st, v, loaded) && r in loaded
    ensures HasRule(st, v, r)
  {
    var rows: seq<StoredRule> :| IsSortOf(rows, RulesOf(st, v), SourceLineOrder(before)) && loaded == Map(Loaded, rows);
    var i :| 0 <= i < |rows| && Loaded(rows[i]) == r;
    assert rows[i] in multiset(rows);
    assert rows[i] in RulesOf(st, v);
    HasRuleIff(st, v, r);
  }

  /** Every rule whose rows read as the rules of a run is found. */
  lemma ContentFound(st: State, v: nat, rules: seq<ConfigRule>, r: ConfigRule)
    requires multiset(Map(Loaded, RulesOf(st, v))) == multiset(rules) && r in rules
    ensures HasRule(st, v, r)
  {
    var rows := RulesOf(st, v);
    assert r in multiset(rules);
    assert r in Map(Loaded, rows);
    var i :| 0 <= i < |rows| && Loaded(rows[i]) == r;
    assert rows[i] in rows;
    HasRuleIff(st, v, r);
  }

  /** Every rule that was imported is found under the version the import returned, new or found, at any later
      time. */
  lemma ImportedRulesFound(env: Env, st: State, given: string, payment: string, settlement: string, rules: seq<ConfigRule>,
      history: seq<Transaction>, r: ConfigRule)
    requires Valid(env, st) && Import(env, st, given, payment, settlement, rules).Some?
    requires (forall x | x in rules :: KnownSource(x.source)) && r in rules
    requires var i := Import(env, st, given, payment, settlement, rules).value;
      i.version in st.versions ==> NoCollision(env, VersionBytes(env, st, i.version), ConfigBytes(payment, settlement, rules))
    ensures var i := Import(env, st, given, payment, settlement, rules).value;
      IsFrozen(Run(env, i.state, history), i.version) && HasRule(Run(env, i.state, history), i.version, r)
  {
    var i := Import(env, st, given, payment, settlement, rules).value;
    if i.version in st.versions {
      FoundHasHash(env, st, given, payment, settlement, rules);
      HashedContent(env, st, i.version, payment, settlement, rules);
      ContentFound(st, i.version, rules, r);
      FoundForever(env, st, i.version, r, history);
    } else {
      NewVersionKept(env, st, given, payment, settlement, rules, history);
      var k :| 0 <= k < |rules| && rules[k] == r;
      assert Map(Stored, rules)[k] in Map(Stored, rules);
      HasRuleIff(Run(env, i.state, history), i.version, r);
    }
  }
}
