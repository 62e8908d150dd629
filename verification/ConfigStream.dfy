/** The byte streams that name a configuration and a run, in Go and in SQL (migration 007). */
module ConfigStream {
  import opened Text
  import opened Outcome
  import opened Domain
  import opened Sequences
  import opened Encoding

  /** A row of mapping_rules: the optional columns may be NULL. */
  datatype StoredRule = StoredRule(
    source: Source,
    originFile: string,
    originLine: nat,
    transactionType: string,
    description: Option<string>,
    amountField: Option<string>,
    amountType: Option<string>,
    amountDescription: Option<string>,
    recordRef: string,
    positiveTarget: Option<string>,
    negativeTarget: Option<string>)

  function Coalesce(s: Option<string>): string {
    match s
    case None => ""
    case Some(v) => v
  }

  /** What an INSERT stores of a parsed rule. */
  function Stored(r: ConfigRule): StoredRule {
    StoredRule(
      r.source, r.originFile, r.originLine, r.transactionType, Nullable(r.description), Nullable(r.amountField),
      Nullable(r.amountType), Nullable(r.amountDescription), r.recordRef, Nullable(r.positiveTarget),
      Nullable(r.negativeTarget))
  }

  /** What LoadRules reads back. */
  function Loaded(r: StoredRule): ConfigRule {
    ConfigRule(
      r.source, r.originFile, r.originLine, r.transactionType, Coalesce(r.description), Coalesce(r.amountField),
      Coalesce(r.amountType), Coalesce(r.amountDescription), r.recordRef, Coalesce(r.positiveTarget),
      Coalesce(r.negativeTarget))
  }

  predicate BlankButNotEmpty(s: string) {
    s != "" && TrimSpace(s) == ""
  }

  /** Some optional field holds only white space, which the table cannot keep. */
  predicate HasBlankField(r: ConfigRule) {
    || BlankButNotEmpty(r.description) || BlankButNotEmpty(r.amountField) || BlankButNotEmpty(r.amountType)
    || BlankButNotEmpty(r.amountDescription) || BlankButNotEmpty(r.positiveTarget) || BlankButNotEmpty(r.negativeTarget)
  }

  /** Storing and loading gives a rule back exactly when no optional field is blank but not empty. */
  lemma StoredRoundTrip(r: ConfigRule)
    ensures Loaded(Stored(r)) == r <==> !HasBlankField(r)
  {
  }

  // ----- The order of the rules in a stream

  datatype Key = Key(source: string, file: string, line: nat)

  function SourceText(s: Source): string {
    match s
    case Payment => "payment"
    case Settlement => "settlement"
    case UnknownSource(name) => name
  }

  predicate KnownSource(s: Source) {
    s == Payment || s == Settlement
  }

  function KeyOf(r: ConfigRule): Key {
    Key(SourceText(r.source), r.originFile, r.originLine)
  }

  function StoredKey(r: StoredRule): Key {
    Key(SourceText(r.source), r.originFile, r.originLine)
  }

  /** How strings are ordered: byte order in Go, a collation in the database. */
  type Order = (string, string) -> bool

  predicate KeyLess(before: Order, a: Key, b: Key) {
    if a.source != b.source then before(a.source, b.source)
    else if a.file != b.file then before(a.file, b.file)
    else a.line < b.line
  }

  function RuleOrder(before: Order): (ConfigRule, ConfigRule) -> bool {
    (a: ConfigRule, b: ConfigRule) => KeyLess(before, KeyOf(a), KeyOf(b))
  }

  function RowOrder(before: Order): (StoredRule, StoredRule) -> bool {
    (a: StoredRule, b: StoredRule) => KeyLess(before, StoredKey(a), StoredKey(b))
  }

  lemma KeyLessOrders(before: Order)
    requires TotalOrder(before)
    ensures StrictWeakOrder((a, b) => KeyLess(before, a, b))
    ensures forall a, b | !KeyLess(before, a, b) && !KeyLess(before, b, a) :: a == b
  {
  }

  lemma RuleOrderWeak(before: Order)
    requires TotalOrder(before)
    ensures StrictWeakOrder(RuleOrder(before)) && StrictWeakOrder(RowOrder(before))
  {
    KeyLessOrders(before);
    var less := (a, b) => KeyLess(before, a, b);
    assert forall a, b :: RuleOrder(before)(a, b) == less(KeyOf(a), KeyOf(b));
    assert forall a, b :: RowOrder(before)(a, b) == less(StoredKey(a), StoredKey(b));
  }

  predicate DistinctKeys(rules: seq<ConfigRule>) {
    forall i, j | 0 <= i < j < |rules| :: KeyOf(rules[i]) != KeyOf(rules[j])
  }

  lemma DistinctSeparates(rules: seq<ConfigRule>, before: Order)
    requires TotalOrder(before) && DistinctKeys(rules)
    ensures Separates(rules, RuleOrder(before))
  {
    KeyLessOrders(before);
    var less := RuleOrder(before);
    forall x, y | x in rules && y in rules && !less(x, y) && !less(y, x)
      ensures x == y
    {
      assert KeyOf(x) == KeyOf(y);
      var i :| 0 <= i < |rules| && rules[i] == x;
      var j :| 0 <= j < |rules| && rules[j] == y;
      assert i == j;
    }
  }

  // ----- The streams

  const WIDTH := 11

  /** The fields in the order configHash writes them. */
  function HashParts(r: ConfigRule): (parts: seq<string>)
    ensures |parts| == WIDTH
  {
    [SourceText(r.source), r.originFile, Decimal(r.originLine), r.transactionType, r.description, r.amountField,
     r.amountType, r.amountDescription, r.recordRef, r.positiveTarget, r.negativeTarget]
  }

  /** The fields in the order runFingerprint writes them. */
  function FingerprintParts(r: ConfigRule): (parts: seq<string>)
    ensures |parts| == WIDTH
  {
    [SourceText(r.source), r.originFile, Decimal(r.originLine), r.transactionType, r.description, r.amountType,
     r.amountDescription, r.amountField, r.recordRef, r.positiveTarget, r.negativeTarget]
  }

  type Layout = ConfigRule -> seq<string>

  /** A layout writes every rule on eleven parts and loses nothing of it. */
  ghost predicate Faithful(layout: Layout) {
    && (forall r :: |layout(r)| == WIDTH)
    && (forall r: ConfigRule, r': ConfigRule | KnownSource(r.source) && KnownSource(r'.source) && layout(r) == layout(r') :: r == r')
  }

  lemma LayoutsFaithful()
    ensures Faithful(HashParts) && Faithful(FingerprintParts)
  {
    forall r: ConfigRule, r': ConfigRule | KnownSource(r.source) && KnownSource(r'.source)
      ensures HashParts(r) == HashParts(r') ==> r == r'
      ensures FingerprintParts(r) == FingerprintParts(r') ==> r == r'
    {
      SamePartsSameRule(r, r');
    }
  }

  lemma SamePartsSameRule(r: ConfigRule, r': ConfigRule)
    requires KnownSource(r.source) && KnownSource(r'.source)
    ensures HashParts(r) == HashParts(r') ==> r == r'
    ensures FingerprintParts(r) == FingerprintParts(r') ==> r == r'
  {
    assert |SourceText(Payment)| == 7 && |SourceText(Settlement)| == 10;
    if Decimal(r.originLine) == Decimal(r'.originLine) {
      DecimalInjective(r.originLine, r'.originLine);
    }
    var p, p' := HashParts(r), HashParts(r');
    var f, f' := FingerprintParts(r), FingerprintParts(r');
    if p == p' {
      assert p[0] == p'[0] && p[1] == p'[1] && p[2] == p'[2] && p[3] == p'[3] && p[4] == p'[4] && p[5] == p'[5];
      assert p[6] == p'[6] && p[7] == p'[7] && p[8] == p'[8] && p[9] == p'[9] && p[10] == p'[10];
    }
    if f == f' {
      assert f[0] == f'[0] && f[1] == f'[1] && f[2] == f'[2] && f[3] == f'[3] && f[4] == f'[4] && f[5] == f'[5];
      assert f[6] == f'[6] && f[7] == f'[7] && f[8] == f'[8] && f[9] == f'[9] && f[10] == f'[10];
    }
  }

  /** Headers, then the rules in byte order of (source, file, line). */
  function Stream(headers: seq<string>, layout: Layout, rules: seq<ConfigRule>): string {
    Encode(headers + Flatten(Map(layout, Sort(rules, RuleOrder(Less)))))
  }

  /** The bytes configHash feeds to SHA-256. */
  function ConfigBytes(payment: string, settlement: string, rules: seq<ConfigRule>): string {
    Stream([payment, settlement], HashParts, rules)
  }

  function FingerprintHeaders(payment: string, settlement: string, selected: string, mode: string, version: nat): seq<string> {
    [payment, settlement, selected, mode, Decimal(version), "normalization-v1", "layout-v1", "reconciliation-v2"]
  }

  /** The bytes runFingerprint feeds to SHA-256. */
  function FingerprintBytes(payment: string, settlement: string, selected: string, mode: string, version: nat,
      rules: seq<ConfigRule>): string {
    Stream(FingerprintHeaders(payment, settlement, selected, mode, version), FingerprintParts, rules)
  }

  // ----- The nested loops that write a stream

  lemma EncodeSnoc(parts: seq<string>, part: string)
    ensures Encode(parts + [part]) == Encode(parts) + Part(part)
  {
    EncodeConcat(parts, [part]);
    assert Encode([]) == "";
    assert Encode([part]) == Part(part) + Encode([part][1..]);
    assert Part(part) + "" == Part(part);
  }

  lemma FlattenSnoc(blocks: seq<seq<string>>, block: seq<string>)
    ensures Flatten(blocks + [block]) == Flatten(blocks) + block
  {
    if blocks == [] {
      assert [block][1..] == [];
      assert Flatten([block]) == block + [];
    } else {
      FlattenSnoc(blocks[1..], block);
      assert (blocks + [block])[1..] == blocks[1..] + [block];
    }
  }

  method WriteParts(stream: string, parts: seq<string>) returns (written: string)
    ensures written == stream + Encode(parts)
  {
    written := stream;
    assert stream + Encode(parts[..0]) == stream;
    for k := 0 to |parts|
      invariant written == stream + Encode(parts[..k])
    {
      EncodeSnoc(parts[..k], parts[k]);
      assert parts[..k + 1] == parts[..k] + [parts[k]];
      ConcatAssociative(stream, Encode(parts[..k]), Part(parts[k]));
      written := written + Part(parts[k]);
    }
    assert parts[..|parts|] == parts;
  }

  lemma StreamSnoc(headers: seq<string>, layout: Layout, rules: seq<ConfigRule>, r: ConfigRule)
    ensures Encode(headers + Flatten(Map(layout, rules + [r]))) ==
      Encode(headers + Flatten(Map(layout, rules))) + Encode(layout(r))
  {
    var blocks := Map(layout, rules);
    assert Map(layout, rules + [r]) == blocks + [layout(r)];
    FlattenSnoc(blocks, layout(r));
    ConcatAssociative(headers, Flatten(blocks), layout(r));
    EncodeConcat(headers + Flatten(blocks), layout(r));
  }

  /** The two hash functions' loops: sort a copy, write the headers, then every rule field by field. */
  method WriteStream(headers: seq<string>, layout: Layout, rules: seq<ConfigRule>) returns (written: string)
    ensures written == Stream(headers, layout, rules)
  {
    written := WriteOrdered(headers, layout, Sort(rules, RuleOrder(Less)));
  }

  method WriteOrdered(headers: seq<string>, layout: Layout, ordered: seq<ConfigRule>) returns (written: string)
    ensures written == Encode(headers + Flatten(Map(layout, ordered)))
  {
    written := WriteParts("", headers);
    assert headers + Flatten(Map(layout, ordered[..0])) == headers;
    for i := 0 to |ordered|
      invariant written == Encode(headers + Flatten(Map(layout, ordered[..i])))
    {
      StreamSnoc(headers, layout, ordered[..i], ordered[i]);
      assert ordered[..i + 1] == ordered[..i] + [ordered[i]];
      written := WriteParts(written, layout(ordered[i]));
    }
    assert ordered[..|ordered|] == ordered;
  }

  // ----- What a stream determines

  lemma StreamBlocks(headers: seq<string>, headers': seq<string>, layout: Layout, s: seq<ConfigRule>, t: seq<ConfigRule>)
    requires |headers| == |headers'| && Faithful(layout)
    requires Encode(headers + Flatten(Map(layout, s))) == Encode(headers' + Flatten(Map(layout, t)))
    ensures headers == headers' && Map(layout, s) == Map(layout, t)
  {
    var a, b := headers + Flatten(Map(layout, s)), headers' + Flatten(Map(layout, t));
    EncodeInjective(a, b);
    assert headers == a[..|headers|] && headers' == b[..|headers|];
    assert Flatten(Map(layout, s)) == a[|headers|..] && Flatten(Map(layout, t)) == b[|headers|..];
    EncodeBlocksInjective(Map(layout, s), Map(layout, t), WIDTH);
  }

  lemma SameBlocksSameRules(layout: Layout, s: seq<ConfigRule>, t: seq<ConfigRule>)
    requires Faithful(layout) && Map(layout, s) == Map(layout, t)
    requires forall r | r in s + t :: KnownSource(r.source)
    ensures s == t
  {
    assert |s| == |Map(layout, s)| == |t|;
    forall i | 0 <= i < |s|
      ensures s[i] == t[i]
    {
      assert s[i] in s + t && t[i] in s + t;
      assert layout(s[i]) == Map(layout, s)[i] == layout(t[i]);
    }
  }

  /** Equal streams mean equal headers and the same rules in the same order; rearranging rules with
      distinct (source, file, line) never shows. */
  lemma StreamDetermines(headers: seq<string>, headers': seq<string>, layout: Layout,
      rules: seq<ConfigRule>, rules': seq<ConfigRule>)
    requires |headers| == |headers'| && Faithful(layout)
    requires forall r | r in rules + rules' :: KnownSource(r.source)
    requires DistinctKeys(rules)
    ensures Stream(headers, layout, rules) == Stream(headers', layout, rules') <==>
      headers == headers' && multiset(rules) == multiset(rules')
  {
    var s, t := Sort(rules, RuleOrder(Less)), Sort(rules', RuleOrder(Less));
    ByteOrderTotal();
    RuleOrderWeak(Less);
    if multiset(rules) == multiset(rules') {
      DistinctSeparates(rules, Less);
      SortPermutation(rules, rules', RuleOrder(Less));
    }
    if Stream(headers, layout, rules) == Stream(headers', layout, rules') {
      StreamBlocks(headers, headers', layout, s, t);
      forall r: ConfigRule | r in s + t
        ensures KnownSource(r.source)
      {
        assert r in multiset(s) || r in multiset(t);
        assert r in rules + rules';
      }
      SameBlocksSameRules(layout, s, t);
    }
  }

  lemma ConfigBytesDetermine(p: string, s: string, rules: seq<ConfigRule>, p': string, s': string, rules': seq<ConfigRule>)
    requires forall r | r in rules + rules' :: KnownSource(r.source)
    requires DistinctKeys(rules)
    ensures ConfigBytes(p, s, rules) == ConfigBytes(p', s', rules') <==>
      p == p' && s == s' && multiset(rules) == multiset(rules')
  {
    LayoutsFaithful();
    var h, h' := [p, s], [p', s'];
    StreamDetermines(h, h', HashParts, rules, rules');
    assert h == h' ==> h[0] == h'[0] && h[1] == h'[1];
  }

  /** Two runs have equal fingerprint bytes exactly when they have the same files, selection, mode,
      configuration version and rules. */
  lemma FingerprintBytesDetermine(p: string, s: string, selected: string, mode: string, version: nat, rules: seq<ConfigRule>,
      p': string, s': string, selected': string, mode': string, version': nat, rules': seq<ConfigRule>)
    requires forall r | r in rules + rules' :: KnownSource(r.source)
    requires DistinctKeys(rules)
    ensures FingerprintBytes(p, s, selected, mode, version, rules) == FingerprintBytes(p', s', selected', mode', version', rules')
      <==> p == p' && s == s' && selected == selected' && mode == mode' && version == version'
           && multiset(rules) == multiset(rules')
  {
    LayoutsFaithful();
    var h, h' := FingerprintHeaders(p, s, selected, mode, version), FingerprintHeaders(p', s', selected', mode', version');
    StreamDetermines(h, h', FingerprintParts, rules, rules');
    if h == h' {
      assert h[0] == h'[0] && h[1] == h'[1] && h[2] == h'[2] && h[3] == h'[3] && h[4] == h'[4];
      DecimalInjective(version, version');
    }
  }

  // ----- The SQL form

  function HashPart(v: Option<string>): string {
    Decimal(|Coalesce(v)|) + ":" + Coalesce(v)
  }

  function RowStream(r: StoredRule): string {
    HashPart(Some(SourceText(r.source))) + HashPart(Some(r.originFile)) + HashPart(Some(Decimal(r.originLine)))
    + HashPart(Some(r.transactionType)) + HashPart(r.description) + HashPart(r.amountField) + HashPart(r.amountType)
    + HashPart(r.amountDescription) + HashPart(Some(r.recordRef)) + HashPart(r.positiveTarget)
    + HashPart(r.negativeTarget)
  }

  /** string_agg with an empty separator. */
  function Aggregate(values: seq<string>): string {
    if values == [] then "" else values[0] + Aggregate(values[1..])
  }

  /** The hashes of the linked files that exist, payment first. */
  function FileStream(payment: Option<string>, settlement: Option<string>): string {
    (if payment.Some? then HashPart(payment) else "") + (if settlement.Some? then HashPart(settlement) else "")
  }

  /** The text compute_config_sha256 digests, for a version with these linked files and rule rows. */
  function DatabaseBytes(collation: Order, payment: Option<string>, settlement: Option<string>, rows: seq<StoredRule>): string {
    FileStream(payment, settlement) + Aggregate(Map(RowStream, Sort(rows, RowOrder(collation))))
  }

  /** Eleven steps of appending. */
  lemma AppendEleven(stream: seq<string>, part: seq<string>)
    requires |part| == WIDTH && |stream| == WIDTH + 1 && stream[0] == ""
    requires forall k | 0 <= k < WIDTH :: stream[k + 1] == stream[k] + part[k]
    ensures stream[WIDTH] == part[0] + part[1] + part[2] + part[3] + part[4] + part[5] + part[6] + part[7] + part[8]
                             + part[9] + part[10]
  {
    assert stream[1] == part[0];
    assert stream[3] == part[0] + part[1] + part[2];
    assert stream[6] == part[0] + part[1] + part[2] + part[3] + part[4] + part[5];
    assert stream[9] == part[0] + part[1] + part[2] + part[3] + part[4] + part[5] + part[6] + part[7] + part[8];
  }

  lemma EncodeEleven(a: seq<string>)
    requires |a| == WIDTH
    ensures Encode(a) == Part(a[0]) + Part(a[1]) + Part(a[2]) + Part(a[3]) + Part(a[4]) + Part(a[5]) + Part(a[6])
                       + Part(a[7]) + Part(a[8]) + Part(a[9]) + Part(a[10])
  {
    var stream := EncodeSteps(a);
    AppendEleven(stream, Map(Part, a));
  }

  lemma EncodeSteps(a: seq<string>) returns (stream: seq<string>)
    ensures |stream| == |a| + 1 && stream[0] == "" && stream[|a|] == Encode(a)
    ensures forall k | 0 <= k < |a| :: stream[k + 1] == stream[k] + Map(Part, a)[k]
  {
    stream := seq(|a| + 1, k requires 0 <= k <= |a| => Encode(a[..k]));
    forall k | 0 <= k < |a|
      ensures stream[k + 1] == stream[k] + Map(Part, a)[k]
    {
      PrefixSnoc(a, k);
    }
    assert a[..|a|] == a;
  }

  lemma PrefixSnoc(a: seq<string>, k: nat)
    requires k < |a|
    ensures Encode(a[..k + 1]) == Encode(a[..k]) + Part(a[k])
  {
    EncodeSnoc(a[..k], a[k]);
    assert a[..k + 1] == a[..k] + [a[k]];
  }

  /** A row contributes to the SQL text what configHash would write for the rule read back from it. */
  lemma RowStreamIsLoaded(r: StoredRule)
    ensures RowStream(r) == Encode(HashParts(Loaded(r)))
  {
    EncodeEleven(HashParts(Loaded(r)));
  }

  lemma {:induction false} AggregateIsEncode(rows: seq<StoredRule>)
    ensures Aggregate(Map(RowStream, rows)) == Encode(Flatten(Map(HashParts, Map(Loaded, rows))))
  {
    var values, blocks := Map(RowStream, rows), Map(HashParts, Map(Loaded, rows));
    if rows != [] {
      AggregateIsEncode(rows[1..]);
      assert values[1..] == Map(RowStream, rows[1..]);
      assert blocks[1..] == Map(HashParts, Map(Loaded, rows[1..]));
      RowStreamIsLoaded(rows[0]);
      EncodeConcat(blocks[0], Flatten(blocks[1..]));
    }
  }

  /** The SQL text is the Go stream of the rules read back in the database's order. */
  lemma DatabaseBytesEncode(collation: Order, payment: string, settlement: string, rows: seq<StoredRule>)
    ensures DatabaseBytes(collation, Some(payment), Some(settlement), rows) ==
      Encode([payment, settlement] + Flatten(Map(HashParts, Map(Loaded, Sort(rows, RowOrder(collation))))))
  {
    var sorted := Sort(rows, RowOrder(collation));
    AggregateIsEncode(sorted);
    EncodeConcat([payment, settlement], Flatten(Map(HashParts, Map(Loaded, sorted))));
    EncodeSnoc([payment], settlement);
    EncodeSnoc([], payment);
    assert [payment] + [settlement] == [payment, settlement] && [] + [payment] == [payment];
    assert "" + Part(payment) == Part(payment);
  }

  /** Rules of one source come from one file, so the collation never compares two file names. */
  predicate OneFilePerSource(rules: seq<ConfigRule>) {
    forall a, b | a in rules && b in rules && a.source == b.source :: a.originFile == b.originFile
  }

  ghost predicate Collation(collation: Order) {
    TotalOrder(collation) && collation("payment", "settlement")
  }

  lemma PaymentFirst()
    ensures Less("payment", "settlement") && !Less("settlement", "payment") && "payment" != "settlement"
  {
    var p, s := "payment", "settlement";
    assert p[0] == 'p' && s[0] == 's';
  }

  lemma SourcesApart(s: Source, t: Source)
    requires KnownSource(s) && KnownSource(t)
    ensures s == t <==> SourceText(s) == SourceText(t)
  {
    assert |SourceText(Payment)| == 7 && |SourceText(Settlement)| == 10;
  }

  lemma SourceOrder(collation: Order, s: Source, t: Source)
    requires Collation(collation) && KnownSource(s) && KnownSource(t) && s != t
    ensures Less(SourceText(s), SourceText(t)) == collation(SourceText(s), SourceText(t))
  {
    PaymentFirst();
    assert !collation("settlement", "payment");
  }

  /** On such rules the two orders agree. */
  lemma OrdersAgree(rules: seq<ConfigRule>, collation: Order, a: ConfigRule, b: ConfigRule)
    requires Collation(collation) && OneFilePerSource(rules)
    requires a in rules && b in rules && KnownSource(a.source) && KnownSource(b.source)
    ensures RuleOrder(Less)(a, b) == RowOrder(collation)(Stored(a), Stored(b))
  {
    SourcesApart(a.source, b.source);
    assert RuleOrder(Less)(a, b) == KeyLess(Less, KeyOf(a), KeyOf(b));
    assert RowOrder(collation)(Stored(a), Stored(b)) == KeyLess(collation, KeyOf(a), KeyOf(b));
    if a.source != b.source {
      SourceOrder(collation, a.source, b.source);
    }
  }

  /** Sorting the stored rows in the database gives the stored image of the rules sorted in Go. */
  lemma SortsAgree(rules: seq<ConfigRule>, rows: seq<StoredRule>, collation: Order)
    requires Collation(collation) && OneFilePerSource(rules) && DistinctKeys(rules)
    requires forall r | r in rules :: KnownSource(r.source)
    requires multiset(rows) == multiset(Map(Stored, rules))
    ensures Sort(rows, RowOrder(collation)) == Map(Stored, Sort(rules, RuleOrder(Less)))
  {
    var sorted := Sort(rules, RuleOrder(Less));
    var image := Map(Stored, sorted);
    ByteOrderTotal();
    RuleOrderWeak(Less);
    RuleOrderWeak(collation);
    SortSorts(rules, RuleOrder(Less));
    SortSorts(rows, RowOrder(collation));
    MapMultiset(Stored, sorted, rules);
    MembersOfSort(rules);
    forall i, j | 0 <= i < j < |image|
      ensures !RowOrder(collation)(image[j], image[i])
    {
      OrdersAgree(rules, collation, sorted[j], sorted[i]);
    }
    StoredSeparates(rules, sorted, collation);
    SortedUnique(image, Sort(rows, RowOrder(collation)), RowOrder(collation));
  }

  lemma MembersOfSort(rules: seq<ConfigRule>)
    ensures forall r | r in Sort(rules, RuleOrder(Less)) :: r in rules
  {
    forall r | r in Sort(rules, RuleOrder(Less))
      ensures r in rules
    {
      assert r in multiset(Sort(rules, RuleOrder(Less)));
    }
  }

  lemma StoredSeparates(rules: seq<ConfigRule>, sorted: seq<ConfigRule>, collation: Order)
    requires TotalOrder(collation) && DistinctKeys(rules)
    requires forall r | r in sorted :: r in rules
    ensures Separates(Map(Stored, sorted), RowOrder(collation))
  {
    KeyLessOrders(collation);
    var image, less := Map(Stored, sorted), RowOrder(collation);
    forall x, y | x in image && y in image && !less(x, y) && !less(y, x)
      ensures x == y
    {
      var i :| 0 <= i < |image| && image[i] == x;
      var j :| 0 <= j < |image| && image[j] == y;
      assert KeyOf(sorted[i]) == StoredKey(x) == StoredKey(y) == KeyOf(sorted[j]);
      assert sorted[i] in rules && sorted[j] in rules;
      var a :| 0 <= a < |rules| && rules[a] == sorted[i];
      var b :| 0 <= b < |rules| && rules[b] == sorted[j];
      assert a == b;
    }
  }

  lemma EqualStreamsEqualRules(headers: seq<string>, sorted: seq<ConfigRule>)
    requires forall r | r in sorted :: KnownSource(r.source)
    requires Encode(headers + Flatten(Map(HashParts, Map(Loaded, Map(Stored, sorted)))))
          == Encode(headers + Flatten(Map(HashParts, sorted)))
    ensures Map(Loaded, Map(Stored, sorted)) == sorted
  {
    var back := Map(Loaded, Map(Stored, sorted));
    LayoutsFaithful();
    StreamBlocks(headers, headers, HashParts, back, sorted);
    assert forall i | 0 <= i < |sorted| :: back[i].source == sorted[i].source && sorted[i] in sorted;
    SameBlocksSameRules(HashParts, back, sorted);
  }

  /** The bytes hashed in Go and in the database are the same exactly when no optional field of a rule is
      blank but not empty. */
  lemma StreamsAgree(payment: string, settlement: string, rules: seq<ConfigRule>, rows: seq<StoredRule>, collation: Order)
    requires Collation(collation) && OneFilePerSource(rules) && DistinctKeys(rules)
    requires forall r | r in rules :: KnownSource(r.source)
    requires multiset(rows) == multiset(Map(Stored, rules))
    ensures DatabaseBytes(collation, Some(payment), Some(settlement), rows) == ConfigBytes(payment, settlement, rules)
      <==> forall r | r in rules :: !HasBlankField(r)
  {
    var sorted := Sort(rules, RuleOrder(Less));
    SortsAgree(rules, rows, collation);
    DatabaseBytesEncode(collation, payment, settlement, rows);
    MembersOfSort(rules);
    RoundTripAll(rules, sorted);
    if DatabaseBytes(collation, Some(payment), Some(settlement), rows) == ConfigBytes(payment, settlement, rules) {
      EqualStreamsEqualRules([payment, settlement], sorted);
    }
  }

  lemma RoundTripAll(rules: seq<ConfigRule>, sorted: seq<ConfigRule>)
    requires multiset(sorted) == multiset(rules)
    ensures Map(Loaded, Map(Stored, sorted)) == sorted <==> forall r | r in rules :: !HasBlankField(r)
  {
    var back := Map(Loaded, Map(Stored, sorted));
    assert forall i | 0 <= i < |sorted| :: back[i] == Loaded(Stored(sorted[i]));
    forall i | 0 <= i < |sorted|
      ensures back[i] == sorted[i] <==> !HasBlankField(sorted[i])
    {
      StoredRoundTrip(sorted[i]);
    }
    forall r
      ensures r in rules <==> r in sorted
    {
      assert r in rules <==> r in multiset(rules);
      assert r in sorted <==> r in multiset(sorted);
    }
    if forall r | r in rules :: !HasBlankField(r) {
      assert forall i | 0 <= i < |sorted| :: sorted[i] in rules;
      assert back == sorted;
    }
    if back == sorted {
      forall r | r in rules
        ensures !HasBlankField(r)
      {
        var i :| 0 <= i < |sorted| && sorted[i] == r;
        assert back[i] == sorted[i];
      }
    }
  }
}
