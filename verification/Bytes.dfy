/** Bytes, options and the few control bytes the wire format gives a meaning to. */
module Bytes {

  datatype Option<+T> = None | Some(value: T)

  type byte = b: int | 0 <= b < 256

  const NUL: byte := 0
  const LF: byte := 10
  const CR: byte := 13
  const COLON: byte := 58
  const BACKSLASH: byte := 92
  const LOWER_C: byte := 99
  const LOWER_N: byte := 110

  /** The bytes of an ASCII literal. */
  function Ascii(s: string): (r: seq<byte>)
    requires forall i :: 0 <= i < |s| ==> s[i] as int < 128
    ensures |r| == |s|
    ensures forall i :: 0 <= i < |s| ==> r[i] == s[i] as int
  {
    seq(|s|, i requires 0 <= i < |s| => s[i] as int)
  }

  /** `bs` with every carriage return removed. */
  function StripCR(bs: seq<byte>): (r: seq<byte>)
    ensures CR !in r
    ensures CR !in bs ==> r == bs
    ensures forall b: byte :: b in r ==> b in bs
  {
    if bs == [] then []
    else if bs[0] == CR then StripCR(bs[1..])
    else [bs[0]] + StripCR(bs[1..])
  }

  lemma {:induction false} StripCRConcat(a: seq<byte>, b: seq<byte>)
    ensures StripCR(a + b) == StripCR(a) + StripCR(b)
  {
    if a == [] {
      assert a + b == b;
    } else {
      assert (a + b)[1..] == a[1..] + b;
      StripCRConcat(a[1..], b);
    }
  }
}
