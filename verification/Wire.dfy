/** The wire format by its letters and bytes: what the definitions of the codec come to, in literals. */
module Wire {
  import opened Bytes
  import opened Utf8
  import opened HeaderCodec
  import opened Decimal
  import opened Frames
  import opened Parser
  import opened RoundTrip

  // ------------------------------------------------------------------------------------------
  // Commands
  // ------------------------------------------------------------------------------------------

  /** The first line of a frame, in ASCII. */
  lemma CommandBytes()
    ensures NameBytes(SEND) == [83, 69, 78, 68]
    ensures NameBytes(SUBSCRIBE) == [83, 85, 66, 83, 67, 82, 73, 66, 69]
    ensures NameBytes(UNSUBSCRIBE) == [85, 78, 83, 85, 66, 83, 67, 82, 73, 66, 69]
    ensures NameBytes(BEGIN) == [66, 69, 71, 73, 78]
    ensures NameBytes(COMMIT) == [67, 79, 77, 77, 73, 84]
    ensures NameBytes(ABORT) == [65, 66, 79, 82, 84]
    ensures NameBytes(ACK) == [65, 67, 75]
    ensures NameBytes(NACK) == [78, 65, 67, 75]
    ensures NameBytes(DISCONNECT) == [68, 73, 83, 67, 79, 78, 78, 69, 67, 84]
    ensures NameBytes(CONNECT) == [67, 79, 78, 78, 69, 67, 84]
    ensures NameBytes(STOMP) == [83, 84, 79, 77, 80]
    ensures NameBytes(CONNECTED) == [67, 79, 78, 78, 69, 67, 84, 69, 68]
    ensures NameBytes(MESSAGE) == [77, 69, 83, 83, 65, 71, 69]
    ensures NameBytes(RECEIPT) == [82, 69, 67, 69, 73, 80, 84]
    ensures NameBytes(ERROR) == [69, 82, 82, 79, 82]
  {
  }

  // ------------------------------------------------------------------------------------------
  // Bodies
  // ------------------------------------------------------------------------------------------

  /** SEND, MESSAGE and ERROR are dumped with their body, the twelve other frames with none. */
  lemma DumpedBody(c: Command, h: Headers, body: seq<byte>)
    ensures DumpFrame(Frame(c, h, body))
         == NameBytes(c) + [10] + DumpHeaders(c, SortedItems(h)) + [10]
            + (if c == SEND || c == MESSAGE || c == ERROR then body else []) + [0]
  {
  }

  /** What follows the blank line of a frame, up to the NUL that ends it, is the body of a SEND, MESSAGE
      or ERROR; any other frame is given back without it. */
  lemma ReceivedBody(toInt: ToInt, st: ParserState, c: Command, h: Headers, body: seq<byte>)
    requires IsBetween(st) && st.previous != Some(13) && c != CONNECT && FreeOf(h, '\0') && FreeOf(h, '\r')
    requires match EffectiveLength(toInt, h) case None => 0 !in body case Some(n) => n == |body|
    ensures Feed(toInt, st, NameBytes(c) + [10] + (DumpHeaders(c, SortedItems(h)) + ([10] + (body + [0]))))
         == Fed(Between(Some(0)), [Frame(c, h, if c == SEND || c == MESSAGE || c == ERROR then body else [])])
  {
    var items := SortedItems(h);
    var n := EffectiveLength(toInt, h);
    ItemsOf(h);
    HeadersReturned(toInt, h);
    HeaderBlockFed(toInt, c, items, body + [0], h, n);
    CommandFed(toInt, st, c, DumpHeaders(c, items) + ([10] + (body + [0])));
    BodyFed(toInt, c, h, n, body);
  }

  /** Whatever is fed, only SEND, MESSAGE and ERROR come out with a body. */
  lemma {:induction false} OnlyTheseHaveBodies(toInt: ToInt, st: ParserState, bs: seq<byte>, i: nat)
    requires i < |Feed(toInt, st, bs).frames| && Feed(toInt, st, bs).frames[i].Frame?
    ensures var f := Feed(toInt, st, bs).frames[i];
            f.command == SEND || f.command == MESSAGE || f.command == ERROR || f.body == []
    decreases |bs|
  {
    var first := Step(toInt, st, bs[0]);
    if i >= |first.frames| {
      OnlyTheseHaveBodies(toInt, first.state, bs[1..], i - |first.frames|);
    }
  }

  // ------------------------------------------------------------------------------------------
  // Headers
  // ------------------------------------------------------------------------------------------

  /** Newline, colon and backslash are written as a backslash and a letter or a second backslash, a
      carriage return is not written, and every other byte stands for itself. */
  lemma EscapeTable(b: byte)
    ensures Escape([b]) == if b == 10 then [92, 110] else if b == 58 then [92, 99] else if b == 92 then [92, 92]
                           else if b == 13 then [] else [b]
  {
    EscapeOne(b);
  }

  /** Read back, a backslash and `n`, `c` or a backslash stand for the byte that was escaped, and with
      any other byte, or alone, for nothing; every other byte stands for itself. */
  lemma UnescapeTable(b: byte, rest: seq<byte>)
    ensures Unescape([92, b] + rest)
         == (if b == 110 then [10] else if b == 99 then [58] else if b == 92 then [92] else []) + Unescape(rest)
    ensures b != 92 ==> Unescape([b] + rest) == [b] + Unescape(rest)
    ensures Unescape([92]) == []
  {
    assert ([92, b] + rest)[2..] == rest && ([b] + rest)[1..] == rest;
  }

  /** A header that is already there is ignored, its length too. */
  lemma RepeatedHeaderIsIgnored(toInt: ToInt, c: Command, h: Headers, n: Option<int>, k: string, v: string)
    requires k in h && '\0' !in k && '\0' !in v && '\r' !in k
    ensures Feed(toInt, InHeaders(c, h, n), DumpHeader(k, v)) == Fed(InHeaders(c, h, n), [])
  {
    HeaderFed(toInt, c, h, n, k, v, [], h, n);
    assert DumpHeader(k, v) + [] == DumpHeader(k, v);
  }

  /** The letters of content-length, whichever are capitals, and nothing else, announce a length. */
  lemma LengthSpellings(k: string)
    ensures Lower(k) == CONTENT_LENGTH
       <==> |k| == 14 && forall i :: 0 <= i < 14 ==>
              k[i] == "content-length"[i] || (i != 7 && k[i] as int + 32 == "content-length"[i] as int)
  {
    LowerAt(k);
    if |k| == 14 {
      forall i | 0 <= i < 14
        ensures LowerChar(k[i]) == "content-length"[i]
           <==> k[i] == "content-length"[i] || (i != 7 && k[i] as int + 32 == "content-length"[i] as int)
      {
        var c := "content-length"[i];
        assert i == 7 <==> c == '-';
        assert c != '-' ==> 'a' <= c <= 'z';
      }
    }
  }

  lemma {:induction false} LowerAt(k: string)
    ensures |Lower(k)| == |k| && forall i :: 0 <= i < |k| ==> Lower(k)[i] == LowerChar(k[i])
  {
    if k != "" { LowerAt(k[1..]); }
  }

  /** A character is one byte below 0x80, or two to four: a leading byte that tells how many, then six
      bits each, the highest first. */
  lemma EncodedCharacter(c: char)
    ensures var n := c as int;
            var b: seq<int> := Encode([c]);
            if n < 0x80 then b == [n]
            else if n < 0x800 then
              |b| == 2 && 0xC2 <= b[0] < 0xE0 && 0x80 <= b[1] < 0xC0
              && n == (b[0] - 0xC0) * 64 + (b[1] - 0x80)
            else if n < 0x10000 then
              |b| == 3 && 0xE0 <= b[0] < 0xF0 && 0x80 <= b[1] < 0xC0 && 0x80 <= b[2] < 0xC0
              && n == (b[0] - 0xE0) * 4096 + (b[1] - 0x80) * 64 + (b[2] - 0x80)
            else
              |b| == 4 && 0xF0 <= b[0] < 0xF5 && 0x80 <= b[1] < 0xC0 && 0x80 <= b[2] < 0xC0 && 0x80 <= b[3] < 0xC0
              && n == (b[0] - 0xF0) * 262144 + (b[1] - 0x80) * 4096 + (b[2] - 0x80) * 64 + (b[3] - 0x80)
  {
    assert Encode([c]) == EncodeChar(c) + Encode([c][1..]) == EncodeChar(c);
  }

  // ------------------------------------------------------------------------------------------
  // Numbers
  // ------------------------------------------------------------------------------------------

  function TenTo(i: nat): nat
  {
    if i == 0 then 1 else 10 * TenTo(i - 1)
  }

  /** The number that digits stand for in base ten, the first digit weighing most. */
  function Value(s: string): int
  {
    if s == "" then 0 else (s[0] as int - 48) * TenTo(|s| - 1) + Value(s[1..])
  }

  lemma {:induction false} ValueAppend(s: string, c: char)
    ensures Value(s + [c]) == 10 * Value(s) + (c as int - 48)
  {
    if s == "" {
      assert s + [c] == [c] && [c][1..] == "";
    } else {
      ValueAppend(s[1..], c);
      assert (s + [c])[1..] == s[1..] + [c];
      TenTimes(s[0] as int - 48, TenTo(|s| - 1));
    }
  }

  lemma TenTimes(a: int, b: int)
    ensures a * (10 * b) == 10 * (a * b)
  {
  }

  /** A number is printed as the digits '0' to '9' that stand for it in base ten, without leading zeros. */
  lemma {:induction false} PrintedValue(n: nat)
    ensures Value(PrintNat(n)) == n
    ensures PrintNat(n) != "" && forall i :: 0 <= i < |PrintNat(n)| ==> 48 <= PrintNat(n)[i] as int <= 57
    ensures n > 0 ==> PrintNat(n)[0] as int != 48
  {
    if n >= 10 {
      PrintedValue(n / 10);
      ValueAppend(PrintNat(n / 10), Digit(n % 10));
    } else {
      assert [Digit(n)][1..] == "";
    }
  }

  /** A negative number has a minus sign before its digits. */
  lemma PrintedSign(n: int)
    requires n >= 0
    ensures Print(n) == PrintNat(n)
    ensures n > 0 ==> Print(0 - n) == ['-'] + PrintNat(n)
  {
  }
}
