/** internal/normalize/normalize.go over ASCII. */
module Normalize {
  import opened Text

  /** The class \s of Go's regular expressions, which unlike TrimSpace leaves out the vertical tab. */
  predicate IsPatternSpace(c: char) {
    IsSpace(c) && c as int != 11
  }

  /** Every run of white space becomes one underscore. */
  function CollapseSpaces(s: string, inRun: bool): string {
    if s == "" then ""
    else if IsPatternSpace(s[0]) then (if inRun then "" else "_") + CollapseSpaces(s[1..], true)
    else [s[0]] + CollapseSpaces(s[1..], false)
  }

  function UpperChar(c: char): char {
    if 'a' <= c <= 'z' then (c as int - 32) as char else c
  }

  function ToUpper(s: string): (r: string)
    ensures |r| == |s|
  {
    seq(|s|, i requires 0 <= i < |s| => UpperChar(s[i]))
  }

  function Label(s: string): string {
    ToUpper(CollapseSpaces(TrimSpace(s), false))
  }

  function LowerChar(c: char): char {
    if 'A' <= c <= 'Z' then (c as int + 32) as char else c
  }

  /** strings.EqualFold over ASCII. */
  predicate EqualFold(a: string, b: string) {
    |a| == |b| && forall i | 0 <= i < |a| :: LowerChar(a[i]) == LowerChar(b[i])
  }

  function TransferDescription(s: string): string {
    var n := Label(s);
    if "TO_ACCOUNT_ENDING_WITH:" <= n then "TO_ACCOUNT_ENDING" else n
  }

  /** A label is empty exactly when only white space was given, so "is specific" may be asked of either. */
  lemma LabelEmpty(s: string)
    ensures Label(s) == "" <==> TrimSpace(s) == ""
  {
    TrimSpaceTrims(s);
    var t := TrimSpace(s);
    if t != "" {
      assert CollapseSpaces(t, false) != "";
    }
  }
}
