/** Header lines: `dump_header`, `unescape_byte` and `parse_header`. */
module HeaderCodec {
  import opened Bytes
  import opened Utf8

  /** HEADER_ESCAPE_CHARS: a carriage return is dropped, not escaped. */
  function EscapeChar(c: char): string
  {
    if c == '\n' then "\\n" else if c == ':' then "\\c" else if c == '\\' then "\\\\" else if c == '\r' then "" else [c]
  }

  function EscapeText(s: string): string
  {
    if s == "" then "" else EscapeChar(s[0]) + EscapeText(s[1..])
  }

  function DumpHeader(key: string, value: string): seq<byte>
  {
    Encode(EscapeText(key) + ":" + EscapeText(value) + "\n")
  }

  /** HEADER_UNESCAPE_CHARS: an unknown escape stands for nothing. */
  function UnescapeOne(b: byte): seq<byte>
  {
    if b == LOWER_N then [LF] else if b == LOWER_C then [COLON] else if b == BACKSLASH then [BACKSLASH] else []
  }

  /** The reference reading of escapes: a backslash and its successor stand for one byte or none. */
  function Unescape(bs: seq<byte>): seq<byte>
  {
    if bs == [] then []
    else if bs[0] != BACKSLASH then [bs[0]] + Unescape(bs[1..])
    else if |bs| == 1 then []
    else UnescapeOne(bs[1]) + Unescape(bs[2..])
  }

  function IndexOf(bs: seq<byte>, b: byte): (i: nat)
    ensures i <= |bs|
    ensures i < |bs| <==> b in bs
    ensures i < |bs| ==> bs[i] == b
    ensures b !in bs[..i]
  {
    if bs == [] || bs[0] == b then 0 else 1 + IndexOf(bs[1..], b)
  }

  function DecodePair(key: seq<byte>, value: seq<byte>): Option<(string, string)>
  {
    match (Decode(key), Decode(value))
    case (Some(k), Some(v)) => Some((k, v))
    case _ => None
  }

  /** The reference parser of a header line: exactly one colon, each side unescaped, then decoded. */
  function SplitHeader(line: seq<byte>): Option<(string, string)>
  {
    var i := IndexOf(line, COLON);
    if i == |line| || COLON in line[i + 1..] then None
    else DecodePair(Unescape(line[..i]), Unescape(line[i + 1..]))
  }

  // ------------------------------------------------------------------------------------------
  // The loop of parse_header
  // ------------------------------------------------------------------------------------------

  function UnescapeByte(b: byte, previous: Option<byte>): Option<byte>
  {
    if previous == Some(BACKSLASH) then
      (if UnescapeOne(b) == [] then None else Some(UnescapeOne(b)[0]))
    else if b == BACKSLASH then None
    else Some(b)
  }

  /** What is still to be read when the automaton is (or is not) in the middle of an escape. */
  function UnescapeFrom(midEscape: bool, bs: seq<byte>): seq<byte>
  {
    if midEscape && bs != [] then UnescapeOne(bs[0]) + Unescape(bs[1..])
    else if midEscape then []
    else Unescape(bs)
  }

  /** The result of the loop once `key` and `value` are collected and `rest` remains. */
  function Remaining(rest: seq<byte>, midEscape: bool, keyParsed: bool, key: seq<byte>, value: seq<byte>)
    : Option<(string, string)>
  {
    var i := IndexOf(rest, COLON);
    if keyParsed then
      (if COLON in rest then None else DecodePair(key, value + UnescapeFrom(midEscape, rest)))
    else if i == |rest| || COLON in rest[i + 1..] then None
    else DecodePair(key + UnescapeFrom(midEscape, rest[..i]), Unescape(rest[i + 1..]))
  }

  lemma RemainingColon(rest: seq<byte>, midEscape: bool, key: seq<byte>)
    requires rest != [] && rest[0] == COLON
    ensures Remaining(rest, midEscape, false, key, []) == Remaining(rest[1..], false, true, key, [])
  {
    assert rest[..0] == [];
    assert key + [] == key;
    assert [] + Unescape(rest[1..]) == Unescape(rest[1..]);
  }

  /** What one non-colon byte adds to the buffer being filled. */
  function Added(midEscape: bool, b: byte): seq<byte>
  {
    if midEscape then UnescapeOne(b) else if b == BACKSLASH then [] else [b]
  }

  lemma UnescapeFromCons(midEscape: bool, b: byte, tail: seq<byte>)
    ensures UnescapeFrom(midEscape, [b] + tail)
         == Added(midEscape, b) + UnescapeFrom(!midEscape && b == BACKSLASH, tail)
  {
    var bs := [b] + tail;
    assert bs[1..] == tail;
    if !midEscape && b == BACKSLASH && tail != [] {
      assert bs[2..] == tail[1..];
    }
  }

  /** One non-colon byte: what it adds to the buffer and where it leaves the automaton. */
  lemma RemainingStep(b: byte, tail: seq<byte>, midEscape: bool, keyParsed: bool, key: seq<byte>, value: seq<byte>)
    requires b != COLON
    ensures Remaining([b] + tail, midEscape, keyParsed, key, value)
         == Remaining(tail, !midEscape && b == BACKSLASH, keyParsed,
                      if keyParsed then key else key + Added(midEscape, b),
                      if keyParsed then value + Added(midEscape, b) else value)
  {
    var rest, added, midEscape' := [b] + tail, Added(midEscape, b), !midEscape && b == BACKSLASH;
    var i := IndexOf(tail, COLON);
    assert rest[1..] == tail;
    if keyParsed {
      UnescapeFromCons(midEscape, b, tail);
      assert value + (added + UnescapeFrom(midEscape', tail)) == (value + added) + UnescapeFrom(midEscape', tail);
    } else {
      assert IndexOf(rest, COLON) == i + 1;
      assert rest[..i + 1] == [b] + tail[..i];
      UnescapeFromCons(midEscape, b, tail[..i]);
      var u := UnescapeFrom(midEscape', tail[..i]);
      assert key + (added + u) == (key + added) + u;
      assert i < |tail| ==> rest[i + 2..] == tail[i + 1..];
    }
  }

  /** A plain two-state unescape automaton that splits at one colon and rejects a second. */
  function Automaton(rest: seq<byte>, midEscape: bool, keyParsed: bool, key: seq<byte>, value: seq<byte>)
    : Option<(string, string)>
  {
    if rest == [] then (if keyParsed then DecodePair(key, value) else None)
    else if rest[0] == COLON then (if keyParsed then None else Automaton(rest[1..], false, true, key, value))
    else
      var added := Added(midEscape, rest[0]);
      Automaton(rest[1..], !midEscape && rest[0] == BACKSLASH, keyParsed,
                if keyParsed then key else key + added, if keyParsed then value + added else value)
  }

  lemma {:induction false} AutomatonReads(rest: seq<byte>, midEscape: bool, keyParsed: bool,
                                          key: seq<byte>, value: seq<byte>)
    requires !keyParsed ==> value == []
    ensures Automaton(rest, midEscape, keyParsed, key, value) == Remaining(rest, midEscape, keyParsed, key, value)
    decreases |rest|
  {
    if rest == [] {
      assert value + UnescapeFrom(midEscape, []) == value;
    } else if rest[0] == COLON {
      if !keyParsed {
        RemainingColon(rest, midEscape, key);
        AutomatonReads(rest[1..], false, true, key, value);
      }
    } else {
      var added := Added(midEscape, rest[0]);
      assert rest == [rest[0]] + rest[1..];
      RemainingStep(rest[0], rest[1..], midEscape, keyParsed, key, value);
      AutomatonReads(rest[1..], !midEscape && rest[0] == BACKSLASH, keyParsed,
                     if keyParsed then key else key + added, if keyParsed then value + added else value);
    }
  }

  /** The header of a line. */
  function HeaderOf(line: seq<byte>): Option<(string, string)>
  {
    Automaton(line, false, false, [], [])
  }

  /** The automaton splits a line at its only colon and unescapes each side on its own. */
  lemma AutomatonSplits(line: seq<byte>)
    ensures HeaderOf(line) == SplitHeader(line)
  {
    AutomatonReads(line, false, false, [], []);
    var i := IndexOf(line, COLON);
    assert [] + Unescape(line[..i]) == Unescape(line[..i]);
  }

  /** `parse_header`. The two flags of the loop encode the one bit "in the middle of an escape". */
  method ParseHeader(buffer: seq<byte>) returns (r: Option<(string, string)>)
    ensures r == HeaderOf(buffer) == SplitHeader(buffer)
  {
    AutomatonSplits(buffer);
    var keyBuffer: seq<byte>, valueBuffer: seq<byte> := [], [];
    var keyParsed := false;
    var previousByte: Option<byte> := None;
    var justEscapedLine := false;
    assert buffer[0..] == buffer;
    for i := 0 to |buffer|
      invariant HeaderOf(buffer) == Automaton(buffer[i..], !justEscapedLine && previousByte == Some(BACKSLASH),
                                              keyParsed, keyBuffer, valueBuffer)
    {
      var b := buffer[i];
      assert buffer[i..][1..] == buffer[i + 1..];
      assert keyBuffer + [] == keyBuffer && valueBuffer + [] == valueBuffer;
      if b == COLON {
        if keyParsed {
          return None;
        }
        keyParsed := true;
      } else if justEscapedLine {
        justEscapedLine := false;
        if b != BACKSLASH {
          if keyParsed { valueBuffer := valueBuffer + [b]; } else { keyBuffer := keyBuffer + [b]; }
        }
      } else {
        var unescaped := UnescapeByte(b, previousByte);
        if unescaped.Some? {
          justEscapedLine := true;
          if keyParsed {
            valueBuffer := valueBuffer + [unescaped.value];
          } else {
            keyBuffer := keyBuffer + [unescaped.value];
          }
        }
      }
      previousByte := Some(b);
    }
    if keyParsed {
      return DecodePair(keyBuffer, valueBuffer);
    }
    return None;
  }

  // ------------------------------------------------------------------------------------------
  // Escaping and its inverse
  // ------------------------------------------------------------------------------------------

  function EscapeByte(b: byte): seq<byte>
  {
    if b == LF then [BACKSLASH, LOWER_N]
    else if b == COLON then [BACKSLASH, LOWER_C]
    else if b == BACKSLASH then [BACKSLASH, BACKSLASH]
    else if b == CR then []
    else [b]
  }

  /** Escaping on bytes; the result can sit inside a header line. */
  function Escape(bs: seq<byte>): (r: seq<byte>)
    ensures LF !in r && COLON !in r && CR !in r
    ensures NUL in r <==> NUL in bs
  {
    if bs == [] then [] else EscapeByte(bs[0]) + Escape(bs[1..])
  }

  lemma {:induction false} EscapeConcat(a: seq<byte>, b: seq<byte>)
    ensures Escape(a + b) == Escape(a) + Escape(b)
  {
    if a == [] {
      assert a + b == b;
    } else {
      assert (a + b)[1..] == a[1..] + b;
      EscapeConcat(a[1..], b);
    }
  }

  lemma {:induction false} EscapeHigh(bs: seq<byte>)
    requires forall i :: 0 <= i < |bs| ==> bs[i] >= 128
    ensures Escape(bs) == bs
  {
    if bs != [] { EscapeHigh(bs[1..]); }
  }

  lemma EscapeOne(b: byte)
    ensures Escape([b]) == EscapeByte(b)
  {
    assert [b][1..] == [];
  }

  lemma EncodeTwo(c: char, d: char)
    ensures Encode([c, d]) == EncodeChar(c) + EncodeChar(d)
  {
    EncodeOne(d);
    assert [c, d][1..] == [d];
  }

  lemma EscapeCharCommutes(c: char)
    ensures Encode(EscapeChar(c)) == Escape(EncodeChar(c))
  {
    if c as int >= 128 {
      EscapeHigh(EncodeChar(c));
      EncodeOne(c);
    } else {
      EscapeOne(c as int);
      if c == '\n' {
        EncodeTwo('\\', 'n');
      } else if c == ':' {
        EncodeTwo('\\', 'c');
      } else if c == '\\' {
        EncodeTwo('\\', '\\');
      } else if c != '\r' {
        EncodeOne(c);
      }
    }
  }

  /** Escaping characters and then encoding is encoding and then escaping bytes. */
  lemma {:induction false} EscapeCommutesWithEncode(s: string)
    ensures Encode(EscapeText(s)) == Escape(Encode(s))
  {
    if s != "" {
      var c := s[0];
      EncodeConcat(EscapeChar(c), EscapeText(s[1..]));
      EscapeConcat(EncodeChar(c), Encode(s[1..]));
      EscapeCommutesWithEncode(s[1..]);
      EscapeCharCommutes(c);
    }
  }

  lemma UnescapeEscapeByte(b: byte, rest: seq<byte>)
    ensures Unescape(EscapeByte(b) + rest) == (if b == CR then [] else [b]) + Unescape(rest)
  {
    var e := EscapeByte(b);
    assert (e + rest)[|e|..] == rest;
    if |e| == 0 {
      assert e + rest == rest;
    } else if |e| == 2 {
      assert (e + rest)[0] == BACKSLASH && UnescapeOne((e + rest)[1]) == [b];
    }
  }

  lemma {:induction false} UnescapeEscape(bs: seq<byte>)
    ensures Unescape(Escape(bs)) == StripCR(bs)
  {
    if bs != [] {
      UnescapeEscape(bs[1..]);
      UnescapeEscapeByte(bs[0], Escape(bs[1..]));
    }
  }

  /** Text without carriage returns. */
  function StripText(s: string): (r: string)
    ensures '\r' !in r
    ensures '\r' !in s ==> r == s
    ensures r == s ==> '\r' !in s
  {
    if s == "" then "" else if s[0] == '\r' then StripText(s[1..]) else [s[0]] + StripText(s[1..])
  }

  lemma {:induction false} EncodeStrip(s: string)
    ensures Encode(StripText(s)) == StripCR(Encode(s))
  {
    if s != "" {
      var c := s[0];
      EncodeStrip(s[1..]);
      StripCRConcat(EncodeChar(c), Encode(s[1..]));
      if c as int < 128 {
        assert StripCR([c as int]) == if c == '\r' then [] else [c as int];
      } else {
        assert StripCR(EncodeChar(c)) == EncodeChar(c);
      }
    }
  }

  /** The bytes of a header line without its newline. */
  function HeaderLine(key: string, value: string): seq<byte>
  {
    Escape(Encode(key)) + [COLON] + Escape(Encode(value))
  }

  lemma DumpHeaderIsLine(key: string, value: string)
    ensures DumpHeader(key, value) == HeaderLine(key, value) + [LF]
  {
    EscapeCommutesWithEncode(key);
    EscapeCommutesWithEncode(value);
    EncodeConcat(EscapeText(key) + ":" + EscapeText(value), "\n");
    EncodeConcat(EscapeText(key) + ":", EscapeText(value));
    EncodeConcat(EscapeText(key), ":");
    EncodeOne(':');
    EncodeOne('\n');
  }

  /** `parse_header` inverts `dump_header`, newline aside, up to the removal of carriage returns. */
  lemma HeaderRoundTrip(key: string, value: string)
    ensures DumpHeader(key, value) == HeaderLine(key, value) + [LF]
    ensures LF !in HeaderLine(key, value) && CR !in HeaderLine(key, value)
    ensures NUL in HeaderLine(key, value) <==> '\0' in key || '\0' in value
    ensures HeaderOf(HeaderLine(key, value)) == Some((StripText(key), StripText(value)))
  {
    DumpHeaderIsLine(key, value);
    EncodeAsciiIn(key, '\0');
    EncodeAsciiIn(value, '\0');
    var k, v := Escape(Encode(key)), Escape(Encode(value));
    var line := HeaderLine(key, value);
    AutomatonSplits(line);
    assert line[|k|] == COLON;
    var i := IndexOf(line, COLON);
    assert COLON !in k && COLON !in line[..i];
    assert i <= |k|;
    assert i == |k|;
    assert line[..i] == k && line[i + 1..] == v;
    UnescapeEscape(Encode(key));
    UnescapeEscape(Encode(value));
    EncodeStrip(key);
    EncodeStrip(value);
    DecodeEncode(StripText(key));
    DecodeEncode(StripText(value));
  }
}
