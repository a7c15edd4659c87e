/** The decimal print/parse pair behind `content-length` and `heart-beat`.
    Python's `int()` also accepts signs, blanks, underscores and other scripts' digits, so every
    result that needs it takes it as a function `toInt` and asks only that it inverts `str()`. */
module Decimal {
  import opened Bytes

  function Digit(n: nat): char
    requires n < 10
  {
    (n + '0' as int) as char
  }

  predicate IsDigit(c: char) { '0' <= c <= '9' }

  /** `str(n)` for a natural number. */
  function PrintNat(n: nat): (r: string)
    ensures r != "" && forall i :: 0 <= i < |r| ==> IsDigit(r[i])
  {
    if n < 10 then [Digit(n)] else PrintNat(n / 10) + [Digit(n % 10)]
  }

  /** `str(n)`. */
  function Print(n: int): string
  {
    if n < 0 then "-" + PrintNat(-n) else PrintNat(n)
  }

  function ParseNat(s: string): Option<nat>
  {
    if s == "" then None
    else
      var c := s[|s| - 1];
      if !IsDigit(c) then None
      else if |s| == 1 then Some(c as int - '0' as int)
      else
        match ParseNat(s[..|s| - 1])
        case None => None
        case Some(n) => Some(10 * n + (c as int - '0' as int))
  }

  /** An optional sign and decimal digits: the part of `int()` that `str()` produces. */
  function Parse(s: string): Option<int>
  {
    if s != "" && s[0] == '-' then
      match ParseNat(s[1..])
      case None => None
      case Some(n) => Some(-(n as int))
    else
      match ParseNat(s)
      case None => None
      case Some(n) => Some(n)
  }

  /** `int(str(n)) == n` for every integer: all that is asked of Python's `int()`. */
  ghost predicate InvertsPrint(toInt: string -> Option<int>)
  {
    forall n: int :: toInt(Print(n)) == Some(n)
  }

  lemma {:induction false} ParsePrintNat(n: nat)
    ensures ParseNat(PrintNat(n)) == Some(n)
  {
    if n >= 10 {
      ParsePrintNat(n / 10);
      var s := PrintNat(n);
      assert s[..|s| - 1] == PrintNat(n / 10);
    }
  }

  /** The canonical parser is such a function. */
  lemma ParseInvertsPrint()
    ensures InvertsPrint(Parse)
  {
    forall n: int ensures Parse(Print(n)) == Some(n) {
      ParsePrintNat(if n < 0 then -n else n);
      if n < 0 {
        assert Print(n)[1..] == PrintNat(-n);
      }
    }
  }
}
