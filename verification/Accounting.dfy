/** What a frame costs on the wire: the parser never gives back a frame for fewer bytes than its dump. */
module Accounting {
  import opened Bytes
  import opened Utf8
  import opened HeaderCodec
  import opened Frames
  import opened Parser
  import opened RoundTrip
  import opened Connect

  // ------------------------------------------------------------------------------------------
  // Lines
  // ------------------------------------------------------------------------------------------

  lemma {:induction false} EscapeUnescapeShrinks(bs: seq<byte>)
    requires LF !in bs && COLON !in bs
    ensures |Unescape(bs)| <= |bs| && |Escape(Unescape(bs))| <= |bs|
  {
    if bs != [] && bs[0] != BACKSLASH {
      EscapeUnescapeShrinks(bs[1..]);
      EscapeConcat([bs[0]], Unescape(bs[1..]));
      EscapeOne(bs[0]);
    } else if |bs| > 1 {
      EscapeUnescapeShrinks(bs[2..]);
      EscapeConcat(UnescapeOne(bs[1]), Unescape(bs[2..]));
      EscapedOneShrinks(bs[1]);
    }
  }

  lemma EscapedOneShrinks(b: byte)
    ensures |UnescapeOne(b)| <= 1 && |Escape(UnescapeOne(b))| <= 2
  {
    if UnescapeOne(b) != [] { EscapeOne(UnescapeOne(b)[0]); }
  }

  /** The dump of a header of command `c`, with its newline. */
  function HeaderDump(c: Command, k: string, v: string): seq<byte>
  {
    if c == CONNECT then Encode(k + ":" + v + "\n") else DumpHeader(k, v)
  }

  /** A line is at least as long as the dump of the header it is read as. */
  lemma LineCovers(c: Command, line: seq<byte>)
    requires LF !in line && HeaderOf(line).Some?
    ensures |HeaderDump(c, HeaderOf(line).value.0, HeaderOf(line).value.1)| <= |line| + 1
  {
    AutomatonSplits(line);
    var (k, v) := HeaderOf(line).value;
    var i := IndexOf(line, COLON);
    EscapeUnescapeShrinks(line[..i]);
    EscapeUnescapeShrinks(line[i + 1..]);
    DecodeIsExact(Unescape(line[..i]), k);
    DecodeIsExact(Unescape(line[i + 1..]), v);
    DumpHeaderIsLine(k, v);
    ConnectLineIsDumped(k, v);
  }

  // ------------------------------------------------------------------------------------------
  // Header blocks
  // ------------------------------------------------------------------------------------------

  function HeadBytes(c: Command, h: Headers): nat { |DumpHeaders(c, SortedItems(h))| }

  lemma HeadBytesLeast(c: Command, h: Headers)
    requires h != map[]
    ensures HeadBytes(c, h) == |HeaderDump(c, LeastKey(h), h[LeastKey(h)])| + HeadBytes(c, h - {LeastKey(h)})
  {
    var k := LeastKey(h);
    var items, tail := SortedItems(h), SortedItems(h - {k});
    assert items == [(k, h[k])] + tail && items[1..] == tail;
  }

  lemma LeastStays(h: Headers, k: string)
    requires k in h && k != LeastKey(h)
    ensures h - {k} != map[] && LeastKey(h - {k}) == LeastKey(h)
  {
    var least := LeastKey(h);
    assert least in h - {k};
    assert IsLeast(least, (h - {k}).Keys);
    LeastExists((h - {k}).Keys);
  }

  /** The order of the headers does not matter to their size. */
  lemma {:induction false} HeadBytesWithout(c: Command, h: Headers, k: string)
    requires k in h
    ensures HeadBytes(c, h) == |HeaderDump(c, k, h[k])| + HeadBytes(c, h - {k})
    decreases |h|
  {
    HeadBytesLeast(c, h);
    var least := LeastKey(h);
    if k != least {
      LeastStays(h, k);
      HeadBytesLeast(c, h - {k});
      assert h.Keys == (h - {least}).Keys + {least};
      HeadBytesWithout(c, h - {least}, k);
      RemovalsCommute(h, k, least);
    }
  }

  lemma RemovalsCommute(h: Headers, j: string, k: string)
    ensures h - {j} - {k} == h - {k} - {j}
  {
  }

  lemma HeadBytesAdd(c: Command, h: Headers, k: string, v: string)
    requires k !in h
    ensures HeadBytes(c, h[k := v]) == HeadBytes(c, h) + |HeaderDump(c, k, v)|
  {
    HeadBytesWithout(c, h[k := v], k);
    assert h[k := v] - {k} == h;
  }

  // ------------------------------------------------------------------------------------------
  // The parser's account
  // ------------------------------------------------------------------------------------------

  /** The part of the next frame's dump that the parser has paid for. */
  function Paid(st: ParserState): nat
  {
    match st.command
    case None => |st.buf|
    case Some(c) =>
      |NameBytes(c)| + 1 + HeadBytes(c, st.headers)
      + if !st.headersProcessed then |st.buf| else 1 + if HasBody(c) then |st.buf| else 0
  }

  function Total(cost: Frame -> nat, frames: seq<Frame>): nat
  {
    if frames == [] then 0 else cost(frames[0]) + Total(cost, frames[1..])
  }

  lemma {:induction false} TotalConcat(cost: Frame -> nat, a: seq<Frame>, b: seq<Frame>)
    ensures Total(cost, a + b) == Total(cost, a) + Total(cost, b)
  {
    if a == [] {
      assert a + b == b;
    } else {
      TotalConcat(cost, a[1..], b);
      assert (a + b)[1..] == a[1..] + b;
    }
  }

  function Cost(f: Frame): nat { |DumpFrame(f)| }

  lemma TotalOne(cost: Frame -> nat, f: Frame)
    ensures Total(cost, [f]) == cost(f)
  {
    assert [f][1..] == [];
  }

  lemma FrameCosts(c: Command, h: Headers, body: seq<byte>)
    ensures Cost(MakeFrame(c, h, body)) == |NameBytes(c)| + 1 + HeadBytes(c, h) + 1 + (if HasBody(c) then |body| else 0) + 1
  {
  }

  function DumpBytes(frames: seq<Frame>): nat { Total(Cost, frames) }

  lemma NullPays(st: ParserState)
    requires Consistent(st)
    ensures DumpBytes(HandleNull(st).frames) + Paid(HandleNull(st).state) <= Paid(st) + 1
  {
    if HandleNull(st).frames != [] {
      FrameCosts(st.command.value, st.headers, st.buf);
      TotalOne(Cost, MakeFrame(st.command.value, st.headers, st.buf));
    }
  }

  lemma NewlinePays(toInt: ToInt, st: ParserState)
    requires Consistent(st) && !st.headersProcessed
    ensures DumpBytes(HandleNewline(toInt, st).frames) + Paid(HandleNewline(toInt, st).state) <= Paid(st) + 1
  {
    var line := Line(st);
    assert |line| <= |st.buf| && LF !in line;
    match st.command {
      case None =>
        TotalOne(Cost, Heartbeat);
        assert SortedItems(map[]) == [];
      case Some(c) =>
        if HeaderOf(line).Some? && HeaderOf(line).value.0 !in st.headers {
          LineCovers(c, line);
          HeadBytesAdd(c, st.headers, HeaderOf(line).value.0, HeaderOf(line).value.1);
        }
    }
  }

  /** A byte pays for at most one byte of a dump. */
  lemma StepPays(toInt: ToInt, st: ParserState, b: byte)
    requires Consistent(st)
    ensures DumpBytes(Step(toInt, st, b).frames) + Paid(Step(toInt, st, b).state) <= Paid(st) + 1
  {
    if b == NUL {
      NullPays(st);
    } else if !st.headersProcessed && b == LF {
      NewlinePays(toInt, st);
    }
  }

  lemma {:induction false} FeedPays(toInt: ToInt, st: ParserState, bs: seq<byte>)
    requires Consistent(st)
    ensures DumpBytes(Feed(toInt, st, bs).frames) + Paid(Feed(toInt, st, bs).state) <= Paid(st) + |bs|
    decreases |bs|
  {
    if bs != [] {
      var first := Step(toInt, st, bs[0]);
      StepPays(toInt, st, bs[0]);
      StepKeepsConsistent(toInt, st, bs[0]);
      FeedPays(toInt, first.state, bs[1..]);
      TotalConcat(Cost, first.frames, Feed(toInt, first.state, bs[1..]).frames);
    }
  }

  /** A frame whose body is being collected will cost more than what is paid. */
  lemma {:induction false} BodyCosts(toInt: ToInt, st: ParserState, bs: seq<byte>)
    requires st.headersProcessed && st.command.Some? && HasBody(st.command.value) && Feed(toInt, st, bs).frames != []
    ensures Cost(Feed(toInt, st, bs).frames[0]) > Paid(st)
    decreases |bs|
  {
    var first := Step(toInt, st, bs[0]);
    if first.frames == [] {
      BodyCosts(toInt, first.state, bs[1..]);
    } else {
      FrameCosts(st.command.value, st.headers, st.buf);
    }
  }
}
