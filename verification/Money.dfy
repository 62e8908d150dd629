/** internal/money/money.go: exact signed cents in 64 bits. */
module Money {
  import opened Text
  import opened Outcome

  const MAX_INT64: int := 0x7FFF_FFFF_FFFF_FFFF
  const MIN_INT64: int := -0x8000_0000_0000_0000
  const MAX_UINT64: int := 0xFFFF_FFFF_FFFF_FFFF

  predicate InInt64(x: int) {
    MIN_INT64 <= x <= MAX_INT64
  }

  /** A value of one of these types is checked, wherever it is produced, to need no wrap-around. */
  type int64 = x: int | MIN_INT64 <= x <= MAX_INT64
  type uint64 = x: int | 0 <= x <= MAX_UINT64

  datatype MoneyError =
    | EmptyAmount
    | InvalidAmount
    | WholeOverflow
    | CentsOverflow
    | AdditionOverflow
    | AdditionUnderflow
    | SubtractionOverflow
    | SubtractionUnderflow

  // ----- Checked arithmetic

  function Add(a: int64, b: int64): (r: Result<int64, MoneyError>)
    ensures r.Ok? <==> InInt64(a + b)
    ensures r.Ok? ==> r.value == a + b
    ensures r == Err(AdditionOverflow) <==> a + b > MAX_INT64
  {
    var room: int64 := if b > 0 then MAX_INT64 - b else if b < 0 then MIN_INT64 - b else 0;
    if b > 0 && a > room then Err(AdditionOverflow)
    else if b < 0 && a < room then Err(AdditionUnderflow)
    else Ok(a + b)
  }

  function Sub(a: int64, b: int64): (r: Result<int64, MoneyError>)
    ensures r.Ok? <==> InInt64(a - b)
    ensures r.Ok? ==> r.value == a - b
    ensures r == Err(SubtractionOverflow) <==> a - b > MAX_INT64
  {
    var room: int64 := if b > 0 then MIN_INT64 + b else if b < 0 then MAX_INT64 + b else 0;
    if b > 0 && a < room then Err(SubtractionUnderflow)
    else if b < 0 && a > room then Err(SubtractionOverflow)
    else Ok(a - b)
  }

  // ----- The accepted language, as an abstract syntax

  /** What the two alternatives of the amount pattern before the decimal point describe: plain
      digits, or a head of one to three digits followed by groups of exactly three. */
  datatype Whole = Plain(digits: string) | Grouped(head: string, groups: seq<string>)

  /** A monetary literal: sign, whole part, and zero to two decimals (none means no point). */
  datatype Literal = Literal(negative: bool, whole: Whole, decimals: string)

  predicate WellFormedWhole(w: Whole) {
    match w
    case Plain(digits) => digits != "" && AllDigits(digits)
    case Grouped(head, groups) =>
      && 1 <= |head| <= 3 && AllDigits(head) && head[0] != '0'
      && forall g | g in groups :: |g| == 3 && AllDigits(g)
  }

  predicate WellFormed(l: Literal) {
    WellFormedWhole(l.whole) && |l.decimals| <= 2 && AllDigits(l.decimals)
  }

  function RenderGroups(groups: seq<string>): string {
    if groups == [] then "" else "," + groups[0] + RenderGroups(groups[1..])
  }

  function RenderWhole(w: Whole): string {
    match w
    case Plain(digits) => digits
    case Grouped(head, groups) => head + RenderGroups(groups)
  }

  function Sign(negative: bool): string {
    if negative then "-" else ""
  }

  function Point(decimals: string): string {
    if decimals == "" then "" else "." + decimals
  }

  function Render(l: Literal): string {
    Sign(l.negative) + (RenderWhole(l.whole) + Point(l.decimals))
  }

  /** Groups are thousands: each one multiplies what precedes it by a thousand. */
  function GroupsValue(acc: nat, groups: seq<string>): nat
    requires forall g | g in groups :: |g| == 3 && AllDigits(g)
    decreases |groups|
  {
    if groups == [] then acc else GroupsValue(1000 * acc + DigitsValue(groups[0]), groups[1..])
  }

  function WholeValue(w: Whole): nat
    requires WellFormedWhole(w)
  {
    match w
    case Plain(digits) => DigitsValue(digits)
    case Grouped(head, groups) => GroupsValue(DigitsValue(head), groups)
  }

  /** One decimal counts tenths, two count hundredths. */
  function DecimalsValue(d: string): nat
    requires |d| <= 2 && AllDigits(d)
  {
    if |d| == 0 then 0 else if |d| == 1 then 10 * DigitValue(d[0]) else 10 * DigitValue(d[0]) + DigitValue(d[1])
  }

  /** The exact number of cents a literal stands for, unbounded. */
  function Cents(l: Literal): int
    requires WellFormed(l)
  {
    var magnitude := 100 * WholeValue(l.whole) + DecimalsValue(l.decimals);
    if l.negative then -magnitude else magnitude
  }

  // ----- Recognising the pattern

  predicate TailMatches(s: string) {
    s == "" || (|s| >= 4 && s[0] == ',' && AllDigits(s[1..4]) && TailMatches(s[4..]))
  }

  predicate HeadMatches(s: string, k: nat) {
    k <= |s| && k > 0 && AllDigits(s[..k]) && s[0] != '0' && TailMatches(s[k..])
  }

  predicate WholeMatches(s: string) {
    (s != "" && AllDigits(s)) || HeadMatches(s, 1) || HeadMatches(s, 2) || HeadMatches(s, 3)
  }

  function Unsigned(s: string): string {
    if s != "" && s[0] == '-' then s[1..] else s
  }

  /** The two parts of strings.SplitN(body, ".", 2); no point means no decimals. */
  function WholeText(body: string): string {
    body[..IndexOf(body, '.')]
  }

  function DecimalsText(body: string): string {
    var dot := IndexOf(body, '.');
    if dot == |body| then "" else body[dot + 1..]
  }

  /** The anchored regular expression of money.go. A whole part holds no point, so the first point,
      if any, is where the decimals start. */
  predicate AmountPattern(s: string) {
    var body := Unsigned(s);
    && WholeMatches(WholeText(body))
    && AllDigits(DecimalsText(body))
    && (IndexOf(body, '.') < |body| ==> 1 <= |DecimalsText(body)| <= 2)
  }

  function DropCommas(s: string): string {
    if s == "" then "" else if s[0] == ',' then DropCommas(s[1..]) else [s[0]] + DropCommas(s[1..])
  }

  /** strconv.ParseUint in base ten on 64 bits, for a string of digits. */
  function ParseUint(s: string): (r: Result<uint64, MoneyError>)
    requires AllDigits(s)
  {
    if DigitsValue(s) > MAX_UINT64 then Err(WholeOverflow) else Ok(DigitsValue(s))
  }

  /** The bounds check and the sign: one more magnitude is available below zero than above. */
  function Signed(negative: bool, whole: uint64, frac: uint64): (r: Result<int64, MoneyError>)
    ensures
      var cents := if negative then -(100 * whole + frac) else 100 * whole + frac;
      r == if InInt64(cents) then Ok(cents) else Err(CentsOverflow)
  {
    var limit: uint64 := if negative then MAX_INT64 + 1 else MAX_INT64;
    if frac > limit || whole > (limit - frac) / 100 then Err(CentsOverflow)
    else
      var magnitude: uint64 := whole * 100 + frac;
      if negative then
        if magnitude == MAX_INT64 + 1 then Ok(-MAX_INT64 - 1)
        else var m: int64 := magnitude; Ok(-m)
      else Ok(magnitude)
  }

  function ParseParts(negative: bool, wholeText: string, f: string): (r: Result<int64, MoneyError>)
    requires AllDigits(wholeText) && AllDigits(f)
  {
    var whole :- ParseUint(wholeText);
    var frac :- ParseUint(if |f| == 1 then f + "0" else f);
    Signed(negative, whole, frac)
  }

  function ParseCents(text: string): (r: Result<int64, MoneyError>) {
    ParseTrimmed(TrimSpace(text))
  }

  /** ParseCents once the surrounding white space is gone. */
  function ParseTrimmed(s: string): (r: Result<int64, MoneyError>) {
    if s == "" then Err(EmptyAmount)
    else if !AmountPattern(s) then Err(InvalidAmount)
    else
      PatternDigits(s);
      ParseParts(s[0] == '-', DropCommas(WholeText(Unsigned(s))), DecimalsText(Unsigned(s)))
  }

  function TwoDigits(n: nat): string
    requires n < 100
  {
    [Digit(n / 10), Digit(n % 10)]
  }

  function FormatCents(v: int64): string {
    var magnitude: uint64 :=
      if v < 0 then (var flipped: int64 := -(v + 1); flipped + 1) else v;
    var s := Decimal(magnitude / 100) + "." + TwoDigits(magnitude % 100);
    if v < 0 then "-" + s else s
  }

  // ----- The recogniser and the abstract syntax agree

  lemma {:induction false} DropCommasConcat(a: string, b: string)
    ensures DropCommas(a + b) == DropCommas(a) + DropCommas(b)
  {
    if a == "" {
      assert a + b == b;
    } else {
      DropCommasConcat(a[1..], b);
      assert (a + b)[1..] == a[1..] + b;
    }
  }

  lemma DropCommasDigits(s: string)
    requires AllDigits(s)
    ensures DropCommas(s) == s
  {
    if s != "" {
      DropCommasDigits(s[1..]);
    }
  }

  /** Reads the groups back from a matched tail. */
  function ReadGroups(s: string): (groups: seq<string>)
    requires TailMatches(s)
    ensures RenderGroups(groups) == s
    ensures forall g | g in groups :: |g| == 3 && AllDigits(g)
  {
    if s == "" then []
    else
      var rest := ReadGroups(s[4..]);
      assert s == "," + s[1..4] + s[4..];
      assert ([s[1..4]] + rest)[1..] == rest;
      [s[1..4]] + rest
  }

  function ReadWhole(s: string): (w: Whole)
    requires WholeMatches(s)
    ensures WellFormedWhole(w) && RenderWhole(w) == s
  {
    if s != "" && AllDigits(s) then Plain(s)
    else
      var k := if HeadMatches(s, 1) then 1 else if HeadMatches(s, 2) then 2 else 3;
      Grouped(s[..k], ReadGroups(s[k..]))
  }

  lemma CutAtPoint(body: string)
    requires IndexOf(body, '.') < |body| ==> DecimalsText(body) != ""
    ensures body == WholeText(body) + Point(DecimalsText(body))
  {
    var dot := IndexOf(body, '.');
    if dot < |body| {
      assert body[dot..] == "." + body[dot + 1..];
      assert body == body[..dot] + body[dot..];
    }
  }

  /** The literal behind a string the pattern accepts. */
  function ReadLiteral(s: string): (l: Literal)
    requires AmountPattern(s)
    ensures WellFormed(l) && Render(l) == s
    ensures l.negative <==> s != "" && s[0] == '-'
  {
    var body := Unsigned(s);
    CutAtPoint(body);
    assert s == Sign(s != "" && s[0] == '-') + body;
    Literal(s != "" && s[0] == '-', ReadWhole(WholeText(body)), DecimalsText(body))
  }

  lemma {:induction false} TailRendered(groups: seq<string>)
    requires forall g | g in groups :: |g| == 3 && AllDigits(g)
    ensures TailMatches(RenderGroups(groups))
    ensures forall i | 0 <= i < |RenderGroups(groups)| :: IsDigit(RenderGroups(groups)[i]) || RenderGroups(groups)[i] == ','
  {
    if groups != [] {
      TailRendered(groups[1..]);
      var s := RenderGroups(groups);
      assert s[1..4] == groups[0];
      assert s[4..] == RenderGroups(groups[1..]);
    }
  }

  lemma WholeRendered(w: Whole)
    requires WellFormedWhole(w)
    ensures WholeMatches(RenderWhole(w))
    ensures forall i | 0 <= i < |RenderWhole(w)| :: IsDigit(RenderWhole(w)[i]) || RenderWhole(w)[i] == ','
  {
    match w
    case Plain(_) =>
    case Grouped(head, groups) =>
      TailRendered(groups);
      var s := RenderWhole(w);
      assert s[..|head|] == head && s[|head|..] == RenderGroups(groups);
      assert HeadMatches(s, |head|);
  }

  lemma BodyShape(w: Whole, decimals: string)
    requires WellFormedWhole(w)
    ensures WholeText(RenderWhole(w) + Point(decimals)) == RenderWhole(w)
    ensures DecimalsText(RenderWhole(w) + Point(decimals)) == decimals
    ensures IndexOf(RenderWhole(w) + Point(decimals), '.') < |RenderWhole(w) + Point(decimals)| <==> decimals != ""
  {
    WholeRendered(w);
    var t := RenderWhole(w);
    if decimals == "" {
      assert t + Point(decimals) == t;
    } else {
      IndexOfSplit(t, '.', decimals);
      assert t + Point(decimals) == t + ['.'] + decimals;
    }
  }

  /** Where the sign of a rendered literal is. */
  lemma RenderedSign(l: Literal)
    requires WellFormed(l)
    ensures Unsigned(Render(l)) == RenderWhole(l.whole) + Point(l.decimals)
    ensures Render(l) != "" && (Render(l)[0] == '-' <==> l.negative)
  {
    WholeRendered(l.whole);
    var body := RenderWhole(l.whole) + Point(l.decimals);
    assert body[0] == RenderWhole(l.whole)[0];
    assert l.negative ==> Render(l)[1..] == body;
    assert !l.negative ==> Render(l) == body;
  }

  lemma RenderedPattern(l: Literal)
    requires WellFormed(l)
    ensures AmountPattern(Render(l))
  {
    WholeRendered(l.whole);
    RenderedSign(l);
    BodyShape(l.whole, l.decimals);
  }

  lemma RenderedTrimmed(l: Literal)
    requires WellFormed(l)
    ensures Trimmed(Render(l))
  {
    WholeRendered(l.whole);
    RenderedSign(l);
    var s, w := Render(l), RenderWhole(l.whole);
    assert s[|s| - 1] == if l.decimals == "" then w[|w| - 1] else l.decimals[|l.decimals| - 1];
    assert l.negative || s[0] == w[0];
  }

  lemma {:induction false} GroupsDropCommas(head: string, groups: seq<string>)
    requires AllDigits(head)
    requires forall g | g in groups :: |g| == 3 && AllDigits(g)
    ensures AllDigits(DropCommas(head + RenderGroups(groups)))
    ensures DigitsValue(DropCommas(head + RenderGroups(groups))) == GroupsValue(DigitsValue(head), groups)
    decreases |groups|
  {
    if groups == [] {
      assert head + RenderGroups(groups) == head;
      DropCommasDigits(head);
    } else {
      var g, tail := groups[0], RenderGroups(groups[1..]);
      NextGroup(head, g, tail);
      GroupsDropCommas(head + g, groups[1..]);
    }
  }

  /** Dropping the comma before a group of three digits appends the group, a factor of a thousand. */
  lemma NextGroup(head: string, g: string, tail: string)
    requires AllDigits(head) && AllDigits(g) && |g| == 3
    ensures DropCommas(head + ("," + g + tail)) == DropCommas(head + g + tail)
    ensures AllDigits(head + g) && DigitsValue(head + g) == 1000 * DigitsValue(head) + DigitsValue(g)
  {
    DropOneComma(head, g + tail);
    assert "," + g + tail == "," + (g + tail);
    assert head + g + tail == head + (g + tail);
    DigitsValueConcat(head, g);
    assert Pow10(3) == 1000;
  }

  lemma DropOneComma(a: string, b: string)
    ensures DropCommas(a + ("," + b)) == DropCommas(a + b)
  {
    DropCommasConcat(a, "," + b);
    DropCommasConcat(a, b);
    assert ("," + b)[1..] == b;
  }

  lemma WholeDropCommas(w: Whole)
    requires WellFormedWhole(w)
    ensures AllDigits(DropCommas(RenderWhole(w)))
    ensures DigitsValue(DropCommas(RenderWhole(w))) == WholeValue(w)
  {
    match w
    case Plain(digits) => DropCommasDigits(digits);
    case Grouped(head, groups) => GroupsDropCommas(head, groups);
  }

  /** What the pattern guarantees to the number reader: only digits are left to convert. */
  lemma PatternDigits(s: string)
    requires AmountPattern(s)
    ensures s != ""
    ensures AllDigits(DropCommas(WholeText(Unsigned(s)))) && AllDigits(DecimalsText(Unsigned(s)))
  {
    var l := ReadLiteral(s);
    RenderedDigits(l);
  }

  lemma RenderedDigits(l: Literal)
    requires WellFormed(l)
    ensures Render(l) != "" && (Render(l)[0] == '-' <==> l.negative)
    ensures
      var body := Unsigned(Render(l));
      && AllDigits(DropCommas(WholeText(body))) && DigitsValue(DropCommas(WholeText(body))) == WholeValue(l.whole)
      && DecimalsText(body) == l.decimals
  {
    RenderedSign(l);
    BodyShape(l.whole, l.decimals);
    WholeDropCommas(l.whole);
  }

  /** The text that ParseCents converts denotes the decimals of the literal, padded to hundredths. */
  lemma PaddedDecimals(d: string)
    requires |d| <= 2 && AllDigits(d)
    ensures var f := if |d| == 1 then d + "0" else d;
      AllDigits(f) && DigitsValue(f) == DecimalsValue(d) && DecimalsValue(d) < 100
  {
    if d != "" {
      var f := if |d| == 1 then d + "0" else d;
      assert f[..1] == [f[0]] && f[..1][..0] == "";
      assert DigitsValue(f[..1]) == DigitValue(f[0]);
      assert DigitsValue(f) == 10 * DigitsValue(f[..1]) + DigitValue(f[1]);
    }
  }

  lemma PartsValue(negative: bool, wholeText: string, d: string)
    requires AllDigits(wholeText) && AllDigits(d) && |d| <= 2
    ensures
      var magnitude := 100 * DigitsValue(wholeText) + DecimalsValue(d);
      var cents := if negative then -magnitude else magnitude;
      var r := ParseParts(negative, wholeText, d);
      && (r.Ok? <==> InInt64(cents)) && (r.Ok? ==> r.value == cents)
      && (r.Err? ==> r.error in {WholeOverflow, CentsOverflow})
  {
    PaddedDecimals(d);
  }

  /** ParseCents on the text of a literal: its exact value when that fits, an overflow otherwise. */
  lemma ParseRendered(l: Literal)
    requires WellFormed(l)
    ensures ParseTrimmed(Render(l)).Ok? <==> InInt64(Cents(l))
    ensures ParseTrimmed(Render(l)).Ok? ==> ParseTrimmed(Render(l)).value == Cents(l)
    ensures ParseTrimmed(Render(l)).Err? ==> ParseTrimmed(Render(l)).error in {WholeOverflow, CentsOverflow}
  {
    RenderedPattern(l);
    RenderedDigits(l);
    PartsValue(l.negative, DropCommas(WholeText(Unsigned(Render(l)))), l.decimals);
  }

  /** ParseCents accepts exactly the trimmed literals whose exact cents fit in 64 bits, and returns them. */
  lemma ParseCentsExact(text: string, v: int64)
    ensures ParseCents(text) == Ok(v) <==>
      exists l :: WellFormed(l) && Render(l) == TrimSpace(text) && Cents(l) == v
  {
    TrimmedExact(TrimSpace(text), v);
  }

  lemma TrimmedExact(s: string, v: int64)
    ensures ParseTrimmed(s) == Ok(v) <==> exists l :: WellFormed(l) && Render(l) == s && Cents(l) == v
  {
    if ParseTrimmed(s) == Ok(v) {
      ParseRendered(ReadLiteral(s));
    }
    if l :| WellFormed(l) && Render(l) == s && Cents(l) == v {
      ParseRendered(l);
    }
  }

  /** Every rejection is one of three: blank text, text outside the grammar, or cents outside 64 bits. */
  lemma ParseCentsRejects(text: string)
    ensures ParseCents(text) == Err(EmptyAmount) <==> TrimSpace(text) == ""
    ensures ParseCents(text) == Err(InvalidAmount) <==>
      TrimSpace(text) != "" && !exists l :: WellFormed(l) && Render(l) == TrimSpace(text)
    ensures (ParseCents(text) == Err(WholeOverflow) || ParseCents(text) == Err(CentsOverflow)) <==>
      exists l :: WellFormed(l) && Render(l) == TrimSpace(text) && !InInt64(Cents(l))
  {
    TrimmedRejects(TrimSpace(text));
  }

  lemma TrimmedRejects(s: string)
    ensures ParseTrimmed(s) == Err(EmptyAmount) <==> s == ""
    ensures ParseTrimmed(s) == Err(InvalidAmount) <==> s != "" && !exists l :: WellFormed(l) && Render(l) == s
    ensures (ParseTrimmed(s) == Err(WholeOverflow) || ParseTrimmed(s) == Err(CentsOverflow)) <==>
      exists l :: WellFormed(l) && Render(l) == s && !InInt64(Cents(l))
  {
    assert AmountPattern(s) <==> exists l :: WellFormed(l) && Render(l) == s by {
      if AmountPattern(s) {
        assert Render(ReadLiteral(s)) == s;
      }
      if l :| WellFormed(l) && Render(l) == s {
        RenderedPattern(l);
      }
    }
    if AmountPattern(s) {
      ParseRendered(ReadLiteral(s));
    }
    if l :| WellFormed(l) && Render(l) == s && !InInt64(Cents(l)) {
      ParseRendered(l);
    }
  }

  /** The canonical literal of a number of cents: no separators, no redundant zero, two decimals. */
  function CanonicalLiteral(v: int64): (l: Literal)
    ensures WellFormed(l) && Cents(l) == v
  {
    var magnitude: nat := if v < 0 then -(v as int) else v;
    DecimalRoundTrip(magnitude / 100);
    Literal(v < 0, Plain(Decimal(magnitude / 100)), TwoDigits(magnitude % 100))
  }

  /** What is printed is a numeral without separators or redundant leading zero and two decimals, with a sign
      exactly for negative amounts. */
  lemma FormatCentsCanonical(v: int64)
    ensures FormatCents(v) == Render(CanonicalLiteral(v))
    ensures var magnitude: nat := if v < 0 then -(v as int) else v;
      var whole := Decimal(magnitude / 100);
      && FormatCents(v) == (if v < 0 then "-" else "") + whole + "." + TwoDigits(magnitude % 100)
      && |TwoDigits(magnitude % 100)| == 2
      && (whole[0] == '0' ==> whole == "0" && magnitude < 100)
  {
    var magnitude: nat := if v < 0 then -(v as int) else v;
    DecimalLeads(magnitude / 100);
  }

  /** Printing and reading back is the identity on all 64-bit amounts, the smallest one included. */
  lemma FormatParseRoundTrip(v: int64)
    ensures ParseCents(FormatCents(v)) == Ok(v)
  {
    var l := CanonicalLiteral(v);
    FormatCentsCanonical(v);
    RenderedTrimmed(l);
    TrimSpaceTrims(Render(l));
    ParseRendered(l);
  }
}
