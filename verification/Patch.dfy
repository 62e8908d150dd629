/** internal/mapping/patch.go on parsed records: loading and applying a guarded patch. */
module Patch {
  import opened Outcome
  import opened Domain

  datatype Action = Update | Delete | OtherAction(name: string)

  datatype Operation = Operation(
    source: Source, line: int, action: Action,
    oldPositive: string, oldNegative: string, newPositive: string, newNegative: string)

  /** A parsed record with the line it starts on; the two target columns are at fixed positions. */
  datatype Record = Record(line: int, fields: seq<string>)

  datatype PatchError =
    | InvalidSource(source: Source)
    | InvalidLine(line: int)
    | InvalidAction(action: Action)
    | DuplicateOperation(source: Source, line: int)
    | NoOperations
    | WrongWidth(line: int)
    | GuardFailed(line: int)
    | MissingLine(line: int)

  // ----- LoadPatch: the checks on a parsed patch file

  predicate ValidOperation(op: Operation) {
    (op.source == Payment || op.source == Settlement) && op.line >= 2 && (op.action == Update || op.action == Delete)
  }

  predicate DistinctTargets(ops: seq<Operation>) {
    forall i, j | 0 <= i < j < |ops| :: ops[i].source != ops[j].source || ops[i].line != ops[j].line
  }

  predicate Loadable(ops: seq<Operation>) {
    (forall op | op in ops :: ValidOperation(op)) && DistinctTargets(ops)
  }

  method CheckPatch(parsed: seq<Operation>) returns (r: Result<seq<Operation>, PatchError>)
    ensures r.Ok? <==> Loadable(parsed)
    ensures r.Ok? ==> r.value == parsed
  {
    var seen: set<(Source, int)> := {};
    for i := 0 to |parsed|
      invariant forall j | 0 <= j < i :: ValidOperation(parsed[j]) && (parsed[j].source, parsed[j].line) in seen
      invariant forall x | x in seen :: exists j | 0 <= j < i :: x == (parsed[j].source, parsed[j].line)
      invariant forall j, k | 0 <= j < k < i :: parsed[j].source != parsed[k].source || parsed[j].line != parsed[k].line
    {
      var op := parsed[i];
      assert op in parsed;
      if op.source != Payment && op.source != Settlement {
        return Err(InvalidSource(op.source));
      }
      if op.line < 2 {
        return Err(InvalidLine(op.line));
      }
      if op.action != Update && op.action != Delete {
        return Err(InvalidAction(op.action));
      }
      if (op.source, op.line) in seen {
        return Err(DuplicateOperation(op.source, op.line));
      }
      seen := seen + {(op.source, op.line)};
    }
    return Ok(parsed);
  }

  // ----- ApplyPatch

  type Plan = map<int, Operation>

  /** The operations of one source by line. */
  ghost predicate PlanOf(plan: Plan, ops: seq<Operation>, source: Source) {
    && (forall l | l in plan :: plan[l] in ops && plan[l].source == source && plan[l].line == l)
    && (forall op | op in ops && op.source == source :: op.line in plan)
  }

  predicate DistinctLines(ops: seq<Operation>, source: Source) {
    forall i, j | 0 <= i < j < |ops| && ops[i].source == source && ops[j].source == source :: ops[i].line != ops[j].line
  }

  method CollectPlan(ops: seq<Operation>, source: Source) returns (r: Result<Plan, PatchError>)
    ensures r.Ok? <==> DistinctLines(ops, source)
    ensures r.Ok? ==> PlanOf(r.value, ops, source)
  {
    var plan: Plan := map[];
    for i := 0 to |ops|
      invariant DistinctLines(ops[..i], source) && PlanOf(plan, ops[..i], source)
    {
      assert ops[..i + 1] == ops[..i] + [ops[i]];
      if ops[i].source == source {
        if ops[i].line in plan {
          var j :| 0 <= j < i && ops[j] == plan[ops[i].line];
          assert !DistinctLines(ops, source);
          return Err(DuplicateOperation(source, ops[i].line));
        }
        plan := plan[ops[i].line := ops[i]];
      }
    }
    assert ops[..|ops|] == ops;
    return Ok(plan);
  }

  /** Where the two target columns of a configuration file are; they have different headers, so they are
      different columns. */
  datatype Columns = Columns(width: nat, positive: nat, negative: nat)

  type Layout = l: Columns | l.positive < l.width && l.negative < l.width && l.positive != l.negative
    witness Columns(2, 0, 1)

  predicate Guarded(r: Record, op: Operation, l: Layout)
    requires |r.fields| == l.width
  {
    r.fields[l.positive] == op.oldPositive && r.fields[l.negative] == op.oldNegative
  }

  function Rewritten(r: Record, op: Operation, l: Layout): (r': Record)
    requires |r.fields| == l.width
    ensures r'.line == r.line && |r'.fields| == l.width
    ensures r'.fields[l.positive] == op.newPositive && r'.fields[l.negative] == op.newNegative
    ensures forall c | 0 <= c < l.width && c != l.positive && c != l.negative :: r'.fields[c] == r.fields[c]
  {
    r.(fields := r.fields[l.positive := op.newPositive][l.negative := op.newNegative])
  }

  /** A record the patch accepts: of the right width and, if an operation aims at it, guarded and with a
      supported action. */
  predicate Accepts(plan: Plan, r: Record, l: Layout) {
    |r.fields| == l.width &&
    (r.line in plan ==> Guarded(r, plan[r.line], l) && (plan[r.line].action == Update || plan[r.line].action == Delete))
  }

  predicate AcceptsAll(plan: Plan, rows: seq<Record>, l: Layout) {
    forall i | 0 <= i < |rows| :: Accepts(plan, rows[i], l)
  }

  /** What becomes of one record: nothing, itself, or itself with the two targets replaced. */
  function PatchOne(plan: Plan, r: Record, l: Layout): seq<Record>
    requires Accepts(plan, r, l)
  {
    if r.line !in plan then [r]
    else if plan[r.line].action == Delete then []
    else [Rewritten(r, plan[r.line], l)]
  }

  function PatchAll(plan: Plan, rows: seq<Record>, l: Layout): seq<Record>
    requires AcceptsAll(plan, rows, l)
  {
    if rows == [] then []
    else PatchAll(plan, rows[..|rows| - 1], l) + PatchOne(plan, rows[|rows| - 1], l)
  }

  predicate HasLine(rows: seq<Record>, line: int) {
    exists i | 0 <= i < |rows| :: rows[i].line == line
  }

  predicate HitsAll(plan: Plan, rows: seq<Record>) {
    forall n | n in plan :: HasLine(rows, n)
  }

  /** The condition for a patch to be published. */
  predicate Applicable(plan: Plan, rows: seq<Record>, l: Layout) {
    plan != map[] && AcceptsAll(plan, rows, l) && HitsAll(plan, rows)
  }

  /** The record loop. */
  method PatchRecords(plan: Plan, rows: seq<Record>, l: Layout) returns (out: seq<Record>, applied: set<int>, error: Option<PatchError>)
    ensures error.None? <==> AcceptsAll(plan, rows, l)
    ensures error.None? ==> out == PatchAll(plan, rows, l)
    ensures error.None? ==> forall n :: n in applied <==> n in plan && HasLine(rows, n)
  {
    out, applied, error := [], {}, None;
    for i := 0 to |rows|
      invariant AcceptsAll(plan, rows[..i], l)
      invariant out == PatchAll(plan, rows[..i], l)
      invariant forall n :: n in applied <==> n in plan && HasLine(rows[..i], n)
    {
      var row := rows[i];
      assert rows[..i + 1] == rows[..i] + [row];
      LineSnoc(rows[..i], row);
      if |row.fields| != l.width {
        return out, applied, Some(WrongWidth(row.line));
      }
      if row.line !in plan {
        out := out + [row];
      } else {
        var op := plan[row.line];
        if row.fields[l.positive] != op.oldPositive || row.fields[l.negative] != op.oldNegative {
          return out, applied, Some(GuardFailed(row.line));
        }
        if op.action == Delete {
          applied := applied + {row.line};
        } else {
          if op.action != Update {
            return out, applied, Some(InvalidAction(op.action));
          }
          out := out + [Rewritten(row, op, l)];
          applied := applied + {row.line};
        }
      }
      PatchSnoc(plan, rows[..i], row, l);
    }
    assert rows[..|rows|] == rows;
  }

  lemma LineSnoc(rows: seq<Record>, r: Record)
    ensures forall n :: HasLine(rows + [r], n) <==> HasLine(rows, n) || r.line == n
  {
    forall n
      ensures HasLine(rows + [r], n) <==> HasLine(rows, n) || r.line == n
    {
      if HasLine(rows, n) {
        var i :| 0 <= i < |rows| && rows[i].line == n;
        assert (rows + [r])[i].line == n;
      }
      assert (rows + [r])[|rows|] == r;
    }
  }

  lemma PatchSnoc(plan: Plan, rows: seq<Record>, r: Record, l: Layout)
    requires AcceptsAll(plan, rows, l) && Accepts(plan, r, l)
    ensures AcceptsAll(plan, rows + [r], l)
    ensures PatchAll(plan, rows + [r], l) == PatchAll(plan, rows, l) + PatchOne(plan, r, l)
  {
    assert (rows + [r])[..|rows|] == rows;
  }

  /** The final loop over the planned lines, in no fixed order. */
  method FirstMissing<T(==)>(lines: set<T>, applied: set<T>) returns (missing: Option<T>)
    ensures missing.None? <==> lines <= applied
    ensures missing.Some? ==> missing.value in lines - applied
  {
    var rest := lines;
    while rest != {}
      invariant rest <= lines
      invariant forall n | n in lines && n !in rest :: n in applied
    {
      var n :| n in rest;
      if n !in applied {
        return Some(n);
      }
      rest := rest - {n};
    }
    return None;
  }

  /** All or nothing: the patched records are produced exactly when there is an operation, every record is
      accepted and every operation hits one; otherwise nothing is produced. */
  method ApplyPlan(plan: Plan, rows: seq<Record>, l: Layout) returns (r: Result<seq<Record>, PatchError>)
    ensures r.Ok? <==> Applicable(plan, rows, l)
    ensures r.Ok? ==> r.value == PatchAll(plan, rows, l)
  {
    if plan == map[] {
      return Err(NoOperations);
    }
    var out, applied, error := PatchRecords(plan, rows, l);
    if error.Some? {
      return Err(error.value);
    }
    var missing := FirstMissing(plan.Keys, applied);
    if missing.Some? {
      return Err(MissingLine(missing.value));
    }
    return Ok(out);
  }

  /** The plan a patch has for one source is determined by its operations. */
  lemma PlanUnique(plan: Plan, plan': Plan, ops: seq<Operation>, source: Source)
    requires PlanOf(plan, ops, source) && PlanOf(plan', ops, source) && DistinctLines(ops, source)
    ensures plan == plan'
  {
    forall n | n in plan
      ensures n in plan' && plan'[n] == plan[n]
    {
      var i :| 0 <= i < |ops| && ops[i] == plan[n];
      var j :| 0 <= j < |ops| && ops[j] == plan'[n];
      assert i == j;
    }
    forall n | n in plan'
      ensures n in plan
    {
      assert plan'[n] in ops;
    }
  }

  method ApplyPatch(ops: seq<Operation>, source: Source, rows: seq<Record>, l: Layout)
      returns (r: Result<seq<Record>, PatchError>)
    ensures r.Ok? <==>
      && (source == Payment || source == Settlement) && DistinctLines(ops, source)
      && exists plan :: PlanOf(plan, ops, source) && Applicable(plan, rows, l)
    ensures r.Ok? ==> forall plan | PlanOf(plan, ops, source) ::
      AcceptsAll(plan, rows, l) && r.value == PatchAll(plan, rows, l)
  {
    if source != Payment && source != Settlement {
      return Err(InvalidSource(source));
    }
    var collected := CollectPlan(ops, source);
    if collected.Err? {
      return Err(collected.error);
    }
    var plan := collected.value;
    forall plan' | PlanOf(plan', ops, source)
      ensures plan' == plan
    {
      PlanUnique(plan', plan, ops, source);
    }
    r := ApplyPlan(plan, rows, l);
  }

  // ----- What a published patch did

  /** Lines identify records, as they do for the records of one file. */
  predicate LineLabelled(rows: seq<Record>) {
    forall i, j | 0 <= i < j < |rows| :: rows[i].line != rows[j].line
  }

  /** Every operation hit exactly one record, whose old targets it named. */
  lemma HitExactlyOne(plan: Plan, rows: seq<Record>, l: Layout, line: int) returns (k: nat)
    requires LineLabelled(rows) && Applicable(plan, rows, l) && line in plan
    ensures k < |rows| && rows[k].line == line
    ensures |rows[k].fields| == l.width && Guarded(rows[k], plan[line], l)
    ensures forall j | 0 <= j < |rows| && rows[j].line == line :: j == k
  {
    assert HasLine(rows, line);
    k :| 0 <= k < |rows| && rows[k].line == line;
    assert Accepts(plan, rows[k], l);
  }

  predicate Kept(plan: Plan, r: Record) {
    r.line !in plan || plan[r.line].action != Delete
  }

  /** `r'` is what a patch leaves of a kept record `r`: the same line and the same fields, except that an
      updated record has the new targets in the two target columns. */
  predicate Leaves(plan: Plan, r: Record, r': Record, l: Layout) {
    && r'.line == r.line && |r.fields| == |r'.fields| == l.width
    && (forall c | 0 <= c < l.width && c != l.positive && c != l.negative :: r'.fields[c] == r.fields[c])
    && if r.line in plan then
         r'.fields[l.positive] == plan[r.line].newPositive && r'.fields[l.negative] == plan[r.line].newNegative
       else r' == r
  }

  /** How many of the first `k` records survive. */
  function KeptBefore(plan: Plan, rows: seq<Record>, k: nat): nat
    requires k <= |rows|
  {
    if k == 0 then 0 else KeptBefore(plan, rows, k - 1) + if Kept(plan, rows[k - 1]) then 1 else 0
  }

  lemma {:induction false} KeptPrefix(plan: Plan, rows: seq<Record>, more: seq<Record>, k: nat)
    requires k <= |rows| && rows <= more
    ensures KeptBefore(plan, rows, k) == KeptBefore(plan, more, k)
  {
    if k > 0 {
      KeptPrefix(plan, rows, more, k - 1);
    }
  }

  /** Exactly the targets of deletions are gone. */
  lemma {:induction false} PatchedLength(plan: Plan, rows: seq<Record>, l: Layout)
    requires AcceptsAll(plan, rows, l)
    ensures |PatchAll(plan, rows, l)| == KeptBefore(plan, rows, |rows|)
  {
    if rows != [] {
      var init := rows[..|rows| - 1];
      PatchedLength(plan, init, l);
      KeptPrefix(plan, init, rows, |init|);
    }
  }

  /** The result is the kept records in their original order, each left as `Leaves` says. */
  lemma {:induction false} PatchedRecords(plan: Plan, rows: seq<Record>, l: Layout, k: nat)
    requires AcceptsAll(plan, rows, l) && k < |rows| && Kept(plan, rows[k])
    ensures KeptBefore(plan, rows, k) < |PatchAll(plan, rows, l)|
    ensures Leaves(plan, rows[k], PatchAll(plan, rows, l)[KeptBefore(plan, rows, k)], l)
    decreases |rows|
  {
    var last := |rows| - 1;
    var init := rows[..last];
    KeptPrefix(plan, init, rows, if k < last then k else last);
    PatchedLength(plan, init, l);
    if k < last {
      PatchedRecords(plan, init, l, k);
    } else {
      assert Accepts(plan, rows[last], l);
    }
  }

  // ----- Undoing an update-only patch

  function Swapped(op: Operation): Operation {
    op.(oldPositive := op.newPositive, oldNegative := op.newNegative, newPositive := op.oldPositive, newNegative := op.oldNegative)
  }

  function Inverse(plan: Plan): Plan {
    map n | n in plan :: Swapped(plan[n])
  }

  predicate UpdateOnly(plan: Plan) {
    forall n | n in plan :: plan[n].action == Update
  }

  lemma RestoresOne(plan: Plan, back: Plan, r: Record, l: Layout)
    requires back == Inverse(plan) && UpdateOnly(plan) && Accepts(plan, r, l)
    ensures |PatchOne(plan, r, l)| == 1 && PatchOne(plan, r, l)[0].line == r.line
    ensures Accepts(back, PatchOne(plan, r, l)[0], l)
    ensures PatchOne(back, PatchOne(plan, r, l)[0], l) == [r]
  {
    if r.line in plan {
      var op := plan[r.line];
      var r' := Rewritten(r, op, l);
      assert r'.fields[l.positive := op.oldPositive][l.negative := op.oldNegative] == r.fields;
    }
  }

  predicate SameLines(rows: seq<Record>, rows': seq<Record>) {
    |rows| == |rows'| && forall i | 0 <= i < |rows| :: rows[i].line == rows'[i].line
  }

  /** Swapping old and new targets undoes an update-only patch: the swapped patch accepts every patched record
      and restores the original ones, in place. */
  lemma {:induction false} InverseRestores(plan: Plan, back: Plan, rows: seq<Record>, l: Layout)
    requires back == Inverse(plan) && UpdateOnly(plan) && AcceptsAll(plan, rows, l)
    ensures SameLines(rows, PatchAll(plan, rows, l))
    ensures AcceptsAll(back, PatchAll(plan, rows, l), l)
    ensures PatchAll(back, PatchAll(plan, rows, l), l) == rows
  {
    if rows != [] {
      var init, last := rows[..|rows| - 1], rows[|rows| - 1];
      assert rows == init + [last];
      InverseRestores(plan, back, init, l);
      RestoresOne(plan, back, last, l);
      var done, last' := PatchAll(plan, init, l), PatchOne(plan, last, l)[0];
      assert PatchAll(plan, rows, l) == done + [last'] by {
        PatchSnoc(plan, init, last, l);
      }
      RestoreStep(back, init, last, done, last', l);
    }
  }

  lemma RestoreStep(back: Plan, init: seq<Record>, last: Record, done: seq<Record>, last': Record, l: Layout)
    requires SameLines(init, done) && last'.line == last.line
    requires AcceptsAll(back, done, l) && PatchAll(back, done, l) == init
    requires Accepts(back, last', l) && PatchOne(back, last', l) == [last]
    ensures SameLines(init + [last], done + [last'])
    ensures AcceptsAll(back, done + [last'], l)
    ensures PatchAll(back, done + [last'], l) == init + [last]
  {
    PatchSnoc(back, done, last', l);
  }

  /** So the swapped patch is applicable whenever the patch was, and the two together change nothing. */
  lemma InverseUndoes(plan: Plan, rows: seq<Record>, l: Layout)
    requires UpdateOnly(plan) && Applicable(plan, rows, l)
    ensures Applicable(Inverse(plan), PatchAll(plan, rows, l), l)
    ensures PatchAll(Inverse(plan), PatchAll(plan, rows, l), l) == rows
  {
    InverseRestores(plan, Inverse(plan), rows, l);
    var patched := PatchAll(plan, rows, l);
    forall n | n in Inverse(plan)
      ensures HasLine(patched, n)
    {
      assert HasLine(rows, n);
      var i :| 0 <= i < |rows| && rows[i].line == n;
      assert patched[i].line == n;
    }
    assert forall n :: n in plan <==> n in Inverse(plan);
  }
}
