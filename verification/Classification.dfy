/** Classify in internal/reconcile/reconcile.go: which rows are in the scope of the selected settlement. */
module Classification {
  import opened Domain
  import opened Normalize
  import opened Sequences

  function ScopeOf(r: RawRow, selected: string): Scope {
    if r.kind == Metadata then MetadataScope
    else if r.source == Payment then
      if r.settlementID != selected then OtherSettlement
      else if EqualFold(r.status, "Deferred") then Deferred
      else if EqualFold(r.status, "Released") then InScope
      else Unsupported
    else if r.settlementID == selected then InScope
    else OtherSettlement
  }

  function Classifier(selected: string): RawRow -> RawRow {
    (r: RawRow) => r.(scope := ScopeOf(r, selected))
  }

  /** Overwrites the scope of every row in place and touches nothing else. */
  method Classify(rows: array<RawRow>, selected: string)
    modifies rows
    ensures rows[..] == Map(Classifier(selected), old(rows[..]))
  {
    for i := 0 to rows.Length
      invariant forall j | 0 <= j < i :: rows[j] == Classifier(selected)(old(rows[j]))
      invariant forall j | i <= j < rows.Length :: rows[j] == old(rows[j])
    {
      var r := rows[i];
      if r.kind == Metadata {
        rows[i] := r.(scope := MetadataScope);
      } else if r.source == Payment {
        if r.settlementID != selected {
          rows[i] := r.(scope := OtherSettlement);
        } else if EqualFold(r.status, "Deferred") {
          rows[i] := r.(scope := Deferred);
        } else if EqualFold(r.status, "Released") {
          rows[i] := r.(scope := InScope);
        } else {
          rows[i] := r.(scope := Unsupported);
        }
      } else {
        if r.settlementID == selected {
          rows[i] := r.(scope := InScope);
        } else {
          rows[i] := r.(scope := OtherSettlement);
        }
      }
    }
  }

  predicate Classified(rows: seq<RawRow>, selected: string) {
    forall r | r in rows :: r.scope == ScopeOf(r, selected)
  }

  /** A classified row is in scope exactly when it is a transaction of the selected settlement that, on the
      payment side, is released. Scope depends on nothing a classification changes. */
  lemma InScopeIff(r: RawRow, selected: string)
    ensures var c := Classifier(selected)(r);
      (c.scope == InScope <==>
        r.kind == Transaction && r.settlementID == selected && (r.source == Payment ==> EqualFold(r.status, "Released")))
    ensures Classifier(selected)(Classifier(selected)(r)) == Classifier(selected)(r)
  {
    if EqualFold(r.status, "Deferred") {
      FoldFirst(r.status, "Deferred");
    }
    if EqualFold(r.status, "Released") {
      FoldFirst(r.status, "Released");
    }
  }

  lemma FoldFirst(a: string, b: string)
    requires EqualFold(a, b) && b != ""
    ensures a != "" && LowerChar(a[0]) == LowerChar(b[0])
  {
  }
}
