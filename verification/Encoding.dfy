/** The length-prefixed encoding `len:bytes` used for group identities
    (internal/reconcile/reconcile.go), run fingerprints and config hashes (internal/store/store.go). */
module Encoding {
  import opened Text

  function Part(value: string): string {
    Decimal(|value|) + ":" + value
  }

  function Encode(parts: seq<string>): string {
    if parts == [] then "" else Part(parts[0]) + Encode(parts[1..])
  }

  lemma {:induction false} EncodeConcat(a: seq<string>, b: seq<string>)
    ensures Encode(a + b) == Encode(a) + Encode(b)
  {
    if a == [] {
      assert a + b == b;
    } else {
      EncodeConcat(a[1..], b);
      assert (a + b)[1..] == a[1..] + b;
    }
  }

  /** The first part can be cut off any stream: its length numeral ends at the first colon. */
  lemma PartPrefix(v: string, rest: string)
    ensures IndexOf(Part(v) + rest, ':') == |Decimal(|v|)|
    ensures (Part(v) + rest)[..|Decimal(|v|)|] == Decimal(|v|)
    ensures (Part(v) + rest)[|Decimal(|v|)| + 1..] == v + rest
  {
    var d := Decimal(|v|);
    assert ':' !in d;
    assert Part(v) + rest == d + [':'] + (v + rest);
    IndexOfSplit(d, ':', v + rest);
  }

  lemma PartUnique(v: string, rest: string, w: string, rest': string)
    requires Part(v) + rest == Part(w) + rest'
    ensures v == w && rest == rest'
  {
    PartPrefix(v, rest);
    PartPrefix(w, rest');
    DecimalInjective(|v|, |w|);
    assert v == (v + rest)[..|v|] && w == (w + rest')[..|w|];
    assert rest == (v + rest)[|v|..] && rest' == (w + rest')[|w|..];
  }

  /** Unique decodability: a stream determines its parts, whatever their number and contents. */
  lemma {:induction false} EncodeInjective(a: seq<string>, b: seq<string>)
    requires Encode(a) == Encode(b)
    ensures a == b
  {
    if a != [] && b != [] {
      PartUnique(a[0], Encode(a[1..]), b[0], Encode(b[1..]));
      EncodeInjective(a[1..], b[1..]);
      assert a == [a[0]] + a[1..] && b == [b[0]] + b[1..];
    }
  }

  /** Streams made of blocks of equal length determine the blocks. */
  lemma {:induction false} EncodeBlocksInjective(a: seq<seq<string>>, b: seq<seq<string>>, width: nat)
    requires width > 0
    requires forall x | x in a :: |x| == width
    requires forall x | x in b :: |x| == width
    requires Flatten(a) == Flatten(b)
    ensures a == b
  {
    assert a != [] ==> |a[0]| == width;
    assert b != [] ==> |b[0]| == width;
    if a != [] && b != [] {
      assert a[0] == Flatten(a)[..width] && b[0] == Flatten(b)[..width];
      assert Flatten(a[1..]) == Flatten(a)[width..] && Flatten(b[1..]) == Flatten(b)[width..];
      EncodeBlocksInjective(a[1..], b[1..], width);
      assert a == [a[0]] + a[1..] && b == [b[0]] + b[1..];
    }
  }

  function Flatten(blocks: seq<seq<string>>): seq<string> {
    if blocks == [] then [] else blocks[0] + Flatten(blocks[1..])
  }
}
