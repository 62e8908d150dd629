/** LoadConfig in internal/mapping/config.go, from the normalised header and the records of one mapping file to
    its rules. */
module ConfigLoad {
  import opened Text
  import opened Outcome
  import opened Domain
  import opened Sequences
  import opened Engine
  import opened ConfigStream

  /** One CSV record after the header, with the line it starts on. */
  datatype Record = Record(line: nat, cells: seq<string>)

  datatype LoadError =
    | UnsupportedSource
    | BlankHeader(column: nat)
    | DuplicateHeader(name: string)
    | MissingColumn(name: string)
    | WrongWidth(line: nat)
    | RoutesWithoutRef(line: nat)
    | UnknownField(line: nat, target: string)

  const POSITIVE := "to_summary_field_when_positive_amount"
  const NEGATIVE := "to_summary_field_when_negative_amount"
  const REQUIRED: seq<string> := ["transaction_type", "record_ref", POSITIVE, NEGATIVE]

  predicate DistinctHeaders(head: seq<string>) {
    forall i, j | 0 <= i < j < |head| :: head[i] != head[j]
  }

  /** idx: the column of each header. */
  predicate IsIndex(idx: map<string, nat>, head: seq<string>) {
    && (forall h | h in idx :: idx[h] < |head| && head[idx[h]] == h)
    && (forall i | 0 <= i < |head| :: head[i] in idx)
  }

  /** The trimmed cell under a header, or nothing when there is no such column. */
  function Cell(head: seq<string>, cells: seq<string>, name: string): (v: string)
    ensures Trimmed(v)
  {
    if head == [] || cells == [] then ""
    else if head[0] == name then
      TrimSpaceTrims(cells[0]);
      TrimSpace(cells[0])
    else Cell(head[1..], cells[1..], name)
  }

  lemma {:induction false} CellAt(head: seq<string>, cells: seq<string>, name: string)
    requires DistinctHeaders(head) && |cells| == |head|
    ensures forall i | 0 <= i < |head| && head[i] == name :: Cell(head, cells, name) == TrimSpace(cells[i])
    ensures name !in head ==> Cell(head, cells, name) == ""
  {
    if head != [] {
      assert head == [head[0]] + head[1..];
      assert forall i, j | 0 <= i < j < |head[1..]| :: head[1..][i] == head[i + 1] && head[1..][j] == head[j + 1];
      CellAt(head[1..], cells[1..], name);
      forall i | 0 <= i < |head| && head[i] == name
        ensures Cell(head, cells, name) == TrimSpace(cells[i])
      {
        if i > 0 {
          assert head[1..][i - 1] == name && cells[1..][i - 1] == cells[i] && head[0] != name;
        }
      }
    }
  }

  /** A rule reads the columns of its source and leaves those of the other empty. */
  function LoadedRule(source: Source, path: string, head: seq<string>): Record -> ConfigRule {
    (record: Record) =>
      var cells, own := record.cells, source == Payment;
      ConfigRule(source, path, record.line, Cell(head, cells, "transaction_type"),
        if own then Cell(head, cells, "description") else "", if own then Cell(head, cells, "amount_field") else "",
        if own then "" else Cell(head, cells, "amount_type"), if own then "" else Cell(head, cells, "amount_description"),
        Cell(head, cells, "record_ref"), Cell(head, cells, POSITIVE), Cell(head, cells, NEGATIVE))
  }

  predicate TargetAllowed(target: string) {
    target == "" || target in SUMMARY_FIELDS
  }

  /** A rule that routes has a record reference and routes to known fields. */
  predicate Accepted(r: ConfigRule) {
    && (TrimSpace(r.recordRef) == "" ==> r.positiveTarget == r.negativeTarget == "")
    && TargetAllowed(r.positiveTarget) && TargetAllowed(r.negativeTarget)
  }

  method IndexHeader(head: seq<string>) returns (r: Result<map<string, nat>, LoadError>)
    ensures r.Ok? <==> "" !in head && DistinctHeaders(head)
    ensures r.Ok? ==> IsIndex(r.value, head)
  {
    var idx: map<string, nat> := map[];
    for i := 0 to |head|
      invariant "" !in head[..i] && DistinctHeaders(head[..i]) && IsIndex(idx, head[..i])
    {
      assert head[..i + 1] == head[..i] + [head[i]];
      if head[i] == "" {
        return Err(BlankHeader(i + 1));
      }
      if head[i] in idx {
        assert head[idx[head[i]]] == head[..i][idx[head[i]]] == head[i];
        return Err(DuplicateHeader(head[i]));
      }
      idx := idx[head[i] := i];
    }
    assert head[..|head|] == head;
    return Ok(idx);
  }

  method CheckRequired(idx: map<string, nat>, head: seq<string>) returns (error: Option<LoadError>)
    requires IsIndex(idx, head)
    ensures error.None? <==> forall h | h in REQUIRED :: h in head
  {
    for i := 0 to |REQUIRED|
      invariant forall j | 0 <= j < i :: REQUIRED[j] in head
    {
      if REQUIRED[i] !in idx {
        assert REQUIRED[i] in REQUIRED;
        return Some(MissingColumn(REQUIRED[i]));
      }
    }
    return None;
  }

  method GetCell(idx: map<string, nat>, head: seq<string>, cells: seq<string>, name: string) returns (v: string)
    requires IsIndex(idx, head) && DistinctHeaders(head) && |cells| == |head|
    ensures v == Cell(head, cells, name)
  {
    CellAt(head, cells, name);
    if name in idx {
      assert head[idx[name]] == name;
      return TrimSpace(cells[idx[name]]);
    }
    assert name !in head;
    return "";
  }

  /** One record of the file. */
  method LoadRule(source: Source, path: string, idx: map<string, nat>, head: seq<string>, record: Record)
      returns (r: Result<ConfigRule, LoadError>)
    requires IsIndex(idx, head) && DistinctHeaders(head)
    ensures r.Ok? <==> |record.cells| == |head| && Accepted(LoadedRule(source, path, head)(record))
    ensures r.Ok? ==> r.value == LoadedRule(source, path, head)(record)
  {
    if |record.cells| != |head| {
      return Err(WrongWidth(record.line));
    }
    var cells := record.cells;
    var transactionType := GetCell(idx, head, cells, "transaction_type");
    var recordRef := GetCell(idx, head, cells, "record_ref");
    var positive := GetCell(idx, head, cells, POSITIVE);
    var negative := GetCell(idx, head, cells, NEGATIVE);
    var c := ConfigRule(source, path, record.line, transactionType, "", "", "", "", recordRef, positive, negative);
    if source == Payment {
      var description := GetCell(idx, head, cells, "description");
      var amountField := GetCell(idx, head, cells, "amount_field");
      c := c.(description := description, amountField := amountField);
    } else {
      var amountType := GetCell(idx, head, cells, "amount_type");
      var amountDescription := GetCell(idx, head, cells, "amount_description");
      c := c.(amountType := amountType, amountDescription := amountDescription);
    }
    if TrimSpace(c.recordRef) == "" && (c.positiveTarget != "" || c.negativeTarget != "") {
      return Err(RoutesWithoutRef(record.line));
    }
    if c.positiveTarget != "" && c.positiveTarget !in SUMMARY_FIELDS {
      return Err(UnknownField(record.line, c.positiveTarget));
    }
    if c.negativeTarget != "" && c.negativeTarget !in SUMMARY_FIELDS {
      return Err(UnknownField(record.line, c.negativeTarget));
    }
    return Ok(c);
  }

  /** What LoadConfig asks of a file. */
  predicate Loadable(source: Source, path: string, head: seq<string>, records: seq<Record>) {
    && KnownSource(source)
    && "" !in head && DistinctHeaders(head) && (forall h | h in REQUIRED :: h in head)
    && forall record | record in records :: |record.cells| == |head| && Accepted(LoadedRule(source, path, head)(record))
  }

  method LoadConfig(source: Source, path: string, head: seq<string>, records: seq<Record>)
      returns (r: Result<seq<ConfigRule>, LoadError>)
    ensures r.Ok? <==> Loadable(source, path, head, records)
    ensures r.Ok? ==> r.value == Map(LoadedRule(source, path, head), records)
  {
    if source != Payment && source != Settlement {
      return Err(UnsupportedSource);
    }
    var index := IndexHeader(head);
    if index.Err? {
      return Err(index.error);
    }
    var missing := CheckRequired(index.value, head);
    if missing.Some? {
      return Err(missing.value);
    }
    var out: seq<ConfigRule> := [];
    for i := 0 to |records|
      invariant out == Map(LoadedRule(source, path, head), records[..i])
      invariant forall j | 0 <= j < i :: |records[j].cells| == |head| && Accepted(LoadedRule(source, path, head)(records[j]))
    {
      var rule := LoadRule(source, path, index.value, head, records[i]);
      if rule.Err? {
        assert records[i] in records;
        return Err(rule.error);
      }
      assert records[..i + 1] == records[..i] + [records[i]];
      out := out + [rule.value];
    }
    assert records[..|records|] == records;
    return Ok(out);
  }

  // ----- What loaded rules are like

  /** Records start on different lines. */
  predicate DistinctLines(records: seq<Record>) {
    forall i, j | 0 <= i < j < |records| :: records[i].line != records[j].line
  }

  lemma TrimmedNotBlank(s: string)
    requires Trimmed(s)
    ensures !BlankButNotEmpty(s)
  {
    TrimSpaceTrims(s);
  }

  /** No rule that was loaded has a field of white space only, which is what the two forms of the configuration
      hash disagree about. */
  lemma LoadedNotBlank(source: Source, path: string, head: seq<string>, record: Record)
    ensures !HasBlankField(LoadedRule(source, path, head)(record))
  {
    forall v | Trimmed(v)
      ensures !BlankButNotEmpty(v)
    {
      TrimmedNotBlank(v);
    }
  }

  /** The rules of a loaded payment file and a loaded settlement file. */
  function LoadedRules(paymentPath: string, paymentHead: seq<string>, payments: seq<Record>,
      settlementPath: string, settlementHead: seq<string>, settlements: seq<Record>): seq<ConfigRule>
  {
    Map(LoadedRule(Payment, paymentPath, paymentHead), payments) + Map(LoadedRule(Settlement, settlementPath, settlementHead), settlements)
  }

  /** They come from one file for each source, none has a blank field, and their keys differ. */
  lemma LoadedShape(pp: string, ph: seq<string>, ps: seq<Record>, sp: string, sh: seq<string>, ss: seq<Record>)
    requires DistinctLines(ps) && DistinctLines(ss)
    ensures var rules := LoadedRules(pp, ph, ps, sp, sh, ss);
      && OneFilePerSource(rules) && DistinctKeys(rules)
      && forall r | r in rules :: !HasBlankField(r) && KnownSource(r.source)
  {
    var rules := LoadedRules(pp, ph, ps, sp, sh, ss);
    forall i | 0 <= i < |rules|
      ensures rules[i] == if i < |ps| then LoadedRule(Payment, pp, ph)(ps[i]) else LoadedRule(Settlement, sp, sh)(ss[i - |ps|])
      ensures !HasBlankField(rules[i])
    {
      if i < |ps| {
        LoadedNotBlank(Payment, pp, ph, ps[i]);
      } else {
        LoadedNotBlank(Settlement, sp, sh, ss[i - |ps|]);
      }
    }
    SourcesApart(Payment, Settlement);
    assert forall r | r in rules :: exists i :: 0 <= i < |rules| && rules[i] == r;
  }
}
