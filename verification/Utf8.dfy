/** UTF-8 as Python's `str.encode()` and strict `bytes.decode()` implement it.
    A Dafny `char` is a Unicode scalar value, so `string` is exactly the encodable `str`. */
module Utf8 {
  import opened Bytes

  /** `q` followed by the six bits of the continuation byte `b`. */
  function Join(q: int, b: byte): int { q * 64 + (b as int - 0x80) }

  /** The continuation byte that carries the low six bits of `n`. */
  function Tail(n: int): (b: byte)
    ensures 0x80 <= b < 0xC0
  {
    0x80 + n % 64
  }

  function EncodeChar(c: char): (r: seq<byte>)
    ensures 1 <= |r| <= 4
    ensures c as int < 128 ==> r == [c as int]
    ensures c as int >= 128 ==> forall i :: 0 <= i < |r| ==> r[i] >= 128
  {
    var n := c as int;
    if n < 0x80 then [n]
    else if n < 0x800 then [0xC0 + n / 64, Tail(n)]
    else if n < 0x10000 then [0xE0 + n / 64 / 64, Tail(n / 64), Tail(n)]
    else [0xF0 + n / 64 / 64 / 64, Tail(n / 64 / 64), Tail(n / 64), Tail(n)]
  }

  function Encode(s: string): (r: seq<byte>)
  {
    if s == "" then [] else EncodeChar(s[0]) + Encode(s[1..])
  }

  predicate Continuation(b: byte) { 0x80 <= b < 0xC0 }

  predicate Scalar(n: int) { 0 <= n < 0xD800 || 0xE000 <= n < 0x11_0000 }

  /** The first character of `b` and the number of bytes it occupies, unless `b` starts
      with an ill-formed sequence: overlong forms and surrogates are refused. */
  function DecodeFirst(b: seq<byte>): (r: Option<(char, nat)>)
    requires b != []
    ensures r.Some? ==> 1 <= r.value.1 <= |b|
  {
    if b[0] < 0x80 then
      Some((b[0] as char, 1))
    else if 0xC2 <= b[0] < 0xE0 && |b| >= 2 && Continuation(b[1]) then
      Some((Join(b[0] - 0xC0, b[1]) as char, 2))
    else if 0xE0 <= b[0] < 0xF0 && |b| >= 3 && Continuation(b[1]) && Continuation(b[2]) then
      var n := Join(Join(b[0] - 0xE0, b[1]), b[2]);
      if n >= 0x800 && Scalar(n) then Some((n as char, 3)) else None
    else if 0xF0 <= b[0] < 0xF8 && |b| >= 4 && Continuation(b[1]) && Continuation(b[2]) && Continuation(b[3]) then
      var n := Join(Join(Join(b[0] - 0xF0, b[1]), b[2]), b[3]);
      if n >= 0x10000 && Scalar(n) then Some((n as char, 4)) else None
    else
      None
  }

  function Decode(b: seq<byte>): (r: Option<string>)
  {
    if b == [] then Some("")
    else
      match DecodeFirst(b)
      case None => None
      case Some((c, k)) =>
        match Decode(b[k..])
        case None => None
        case Some(s) => Some([c] + s)
  }

  lemma JoinTail(n: int)
    ensures Join(n / 64, Tail(n)) == n
  {
  }

  lemma SplitJoin(q: int, b: byte)
    requires Continuation(b)
    ensures Join(q, b) / 64 == q && Tail(Join(q, b)) == b
  {
  }

  lemma DecodeFirstEncode(c: char, rest: seq<byte>)
    ensures DecodeFirst(EncodeChar(c) + rest) == Some((c, |EncodeChar(c)|))
  {
    var n := c as int;
    assert Scalar(n);
    JoinTail(n);
    JoinTail(n / 64);
    JoinTail(n / 64 / 64);
  }

  lemma EncodeDecodeFirst(b: seq<byte>)
    requires b != [] && DecodeFirst(b).Some?
    ensures b[..DecodeFirst(b).value.1] == EncodeChar(DecodeFirst(b).value.0)
  {
    var (c, k) := DecodeFirst(b).value;
    if k == 2 {
      SplitJoin(b[0] - 0xC0, b[1]);
    } else if k == 3 {
      SplitJoin(b[0] - 0xE0, b[1]);
      SplitJoin(Join(b[0] - 0xE0, b[1]), b[2]);
    } else if k == 4 {
      EncodeDecodeFour(b);
    }
  }

  lemma EncodeDecodeFour(b: seq<byte>)
    requires b != [] && DecodeFirst(b).Some? && DecodeFirst(b).value.1 == 4
    ensures b[..4] == EncodeChar(DecodeFirst(b).value.0)
  {
    SplitJoin(b[0] - 0xF0, b[1]);
    SplitJoin(Join(b[0] - 0xF0, b[1]), b[2]);
    SplitJoin(Join(Join(b[0] - 0xF0, b[1]), b[2]), b[3]);
  }

  /** Decoding undoes encoding. */
  lemma {:induction false} DecodeEncode(s: string)
    ensures Decode(Encode(s)) == Some(s)
  {
    if s != "" {
      var e := EncodeChar(s[0]);
      DecodeFirstEncode(s[0], Encode(s[1..]));
      assert (e + Encode(s[1..]))[|e|..] == Encode(s[1..]);
      DecodeEncode(s[1..]);
      assert s == [s[0]] + s[1..];
    }
  }

  /** The decoder accepts nothing but encodings: together with `DecodeEncode`,
      `Decode(b) == Some(s)` exactly when `b == Encode(s)`. */
  lemma {:induction false} DecodeIsExact(b: seq<byte>, s: string)
    ensures Decode(b) == Some(s) <==> b == Encode(s)
  {
    DecodeEncode(s);
    if Decode(b) == Some(s) && b != [] {
      var (c, k) := DecodeFirst(b).value;
      EncodeDecodeFirst(b);
      DecodeIsExact(b[k..], Decode(b[k..]).value);
      assert b == b[..k] + b[k..];
    }
  }

  lemma {:induction false} EncodeConcat(s: string, t: string)
    ensures Encode(s + t) == Encode(s) + Encode(t)
  {
    if s == "" {
      assert s + t == t;
    } else {
      assert (s + t)[1..] == s[1..] + t;
      EncodeConcat(s[1..], t);
    }
  }

  lemma EncodeOne(c: char)
    ensures Encode([c]) == EncodeChar(c)
  {
    assert [c][1..] == "";
  }

  /** An ASCII byte occurs in an encoding exactly when its character occurs in the text. */
  lemma {:induction false} EncodeAsciiIn(s: string, c: char)
    requires c as int < 128
    ensures c as int in Encode(s) <==> c in s
  {
    if s != "" {
      EncodeAsciiIn(s[1..], c);
      assert s == [s[0]] + s[1..];
    }
  }
}
