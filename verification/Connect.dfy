/** CONNECT is dumped unescaped but read like any other frame: exactly which CONNECT frames survive. */
module Connect {
  import opened Bytes
  import opened Utf8
  import opened HeaderCodec
  import opened Frames
  import opened Parser
  import opened Reference
  import opened RoundTrip

  predicate EndsInCR(s: string) { s != "" && s[|s| - 1] == '\r' }

  /** What a caller must check for a CONNECT frame to survive the wire. */
  ghost predicate ConnectSafe(toInt: ToInt, f: Frame)
    requires f.Frame?
  {
    && Plain(f.headers) && FreeOf(f.headers, '\0')
    && (forall k :: k in f.headers ==> !EndsInCR(f.headers[k]))
    && (EffectiveLength(toInt, f.headers).Some? ==> EffectiveLength(toInt, f.headers).value == 0)
  }

  /** Nothing in a key or value that an escape would be needed for. */
  ghost predicate Plain(h: Headers)
  {
    FreeOf(h, '\n') && FreeOf(h, ':') && FreeOf(h, '\\')
  }

  // ------------------------------------------------------------------------------------------
  // Backslashes: the reader returns at most half of those on a line
  // ------------------------------------------------------------------------------------------

  function Slashes(bs: seq<byte>): nat
  {
    if bs == [] then 0 else (if bs[0] == BACKSLASH then 1 else 0) + Slashes(bs[1..])
  }

  function HeaderSlashes(k: string, v: string): nat { Slashes(Encode(k)) + Slashes(Encode(v)) }

  lemma {:induction false} SlashesConcat(a: seq<byte>, b: seq<byte>)
    ensures Slashes(a + b) == Slashes(a) + Slashes(b)
  {
    if a == [] {
      assert a + b == b;
    } else {
      SlashesConcat(a[1..], b);
      assert (a + b)[1..] == a[1..] + b;
    }
  }

  lemma {:induction false} SlashesNone(bs: seq<byte>)
    ensures Slashes(bs) == 0 <==> BACKSLASH !in bs
  {
    if bs != [] { SlashesNone(bs[1..]); }
  }

  lemma {:induction false} UnescapeHalves(bs: seq<byte>)
    ensures 2 * Slashes(Unescape(bs)) <= Slashes(bs)
  {
    if bs != [] && bs[0] != BACKSLASH {
      UnescapeHalves(bs[1..]);
      SlashesConcat([bs[0]], Unescape(bs[1..]));
    } else if |bs| > 1 {
      UnescapeHalves(bs[2..]);
      assert bs[1..][1..] == bs[2..];
      SlashesConcat(UnescapeOne(bs[1]), Unescape(bs[2..]));
    }
  }

  lemma HeaderOfHalves(line: seq<byte>)
    requires HeaderOf(line).Some?
    ensures 2 * HeaderSlashes(HeaderOf(line).value.0, HeaderOf(line).value.1) <= Slashes(line)
  {
    AutomatonSplits(line);
    var (k, v) := HeaderOf(line).value;
    var i := IndexOf(line, COLON);
    UnescapeHalves(line[..i]);
    UnescapeHalves(line[i + 1..]);
    DecodeIsExact(Unescape(line[..i]), k);
    DecodeIsExact(Unescape(line[i + 1..]), v);
    SlashesSplit(line, i);
  }

  lemma SlashesSplit(line: seq<byte>, i: nat)
    requires i < |line| && line[i] == COLON
    ensures Slashes(line) == Slashes(line[..i]) + Slashes(line[i + 1..])
  {
    assert line == line[..i] + line[i..] && line[i..][1..] == line[i + 1..];
    SlashesConcat(line[..i], line[i..]);
  }

  ghost predicate Within(h: Headers, m: nat)
  {
    forall k :: k in h ==> HeaderSlashes(k, h[k]) <= m
  }

  /** No line of `bs` has more than `m` backslashes, given that the line it continues has `n`. */
  predicate LinesWithin(n: nat, bs: seq<byte>, m: nat)
    decreases |bs|
  {
    bs == [] || (var n' := After(n, bs[0]); n' <= m && LinesWithin(n', bs[1..], m))
  }

  function After(n: nat, b: byte): nat
  {
    if b == LF then 0 else if b == BACKSLASH then n + 1 else n
  }

  /** The parser has collected `n` backslashes at most, and its headers hold half of `m`. */
  ghost predicate Meek(st: ParserState, n: nat, m: nat)
  {
    Within(st.headers, m / 2) && (!st.headersProcessed ==> Slashes(st.buf) <= n)
  }

  lemma LineSlashes(st: ParserState)
    ensures Slashes(Line(st)) <= Slashes(st.buf)
  {
    if Line(st) != st.buf {
      assert [st.buf[|st.buf| - 1]][1..] == [];
      assert st.buf == Line(st) + [st.buf[|st.buf| - 1]];
      SlashesConcat(Line(st), [st.buf[|st.buf| - 1]]);
    }
  }

  lemma NewlineMeek(toInt: ToInt, st: ParserState, n: nat, m: nat)
    requires Meek(st, n, m) && n <= m && !st.headersProcessed
    ensures Meek(HandleNewline(toInt, st).state, 0, m)
  {
    var line := Line(st);
    LineSlashes(st);
    if st.command.Some? && HeaderOf(line).Some? {
      HeaderOfHalves(line);
      var (k, v) := HeaderOf(line).value;
      assert HeaderSlashes(k, v) <= m / 2;
      assert Within(AddLine(toInt, st.headers, st.contentLength, line).0, m / 2);
    }
  }

  lemma StepMeek(toInt: ToInt, st: ParserState, b: byte, n: nat, m: nat)
    requires Meek(st, n, m) && n <= m
    ensures Meek(Step(toInt, st, b).state, After(n, b), m)
    ensures forall i :: 0 <= i < |Step(toInt, st, b).frames| && Step(toInt, st, b).frames[i].Frame? ==>
              Within(Step(toInt, st, b).frames[i].headers, m / 2)
  {
    if b == LF && !st.headersProcessed {
      NewlineMeek(toInt, st, n, m);
    } else {
      SlashesConcat(st.buf, [b]);
    }
  }

  lemma {:induction false} FeedMeek(toInt: ToInt, st: ParserState, bs: seq<byte>, n: nat, m: nat)
    requires Meek(st, n, m) && n <= m && LinesWithin(n, bs, m)
    ensures forall i :: 0 <= i < |Feed(toInt, st, bs).frames| && Feed(toInt, st, bs).frames[i].Frame? ==>
              Within(Feed(toInt, st, bs).frames[i].headers, m / 2)
    decreases |bs|
  {
    if bs != [] {
      StepMeek(toInt, st, bs[0], n, m);
      FeedMeek(toInt, Step(toInt, st, bs[0]).state, bs[1..], After(n, bs[0]), m);
    }
  }

  lemma {:induction false} LineWithin(w: seq<byte>, rest: seq<byte>, n: nat, m: nat)
    requires n + Slashes(w) <= m && LinesWithin(0, rest, m)
    ensures LinesWithin(n, w + [LF] + rest, m)
    decreases |w|
  {
    var s := w + [LF] + rest;
    if w == [] {
      assert s[1..] == rest;
    } else {
      LineWithin(w[1..], rest, After(n, w[0]), m);
      assert s[1..] == w[1..] + [LF] + rest;
    }
  }

  function ConnectLine(k: string, v: string): seq<byte> { Encode(k) + [COLON] + Encode(v) }

  lemma ConnectLineIsDumped(k: string, v: string)
    ensures Encode(k + ":" + v + "\n") == ConnectLine(k, v) + [LF]
    ensures Slashes(ConnectLine(k, v)) == HeaderSlashes(k, v)
  {
    EncodeConcat(k + ":" + v, "\n");
    EncodeConcat(k + ":", v);
    EncodeConcat(k, ":");
    EncodeOne(':');
    EncodeOne('\n');
    SlashesConcat(Encode(k) + [COLON], Encode(v));
    SlashesConcat(Encode(k), [COLON]);
    assert [COLON][1..] == [];
  }

  lemma {:induction false} HeadersWithin(items: seq<(string, string)>, rest: seq<byte>, m: nat)
    requires forall i :: 0 <= i < |items| ==> HeaderSlashes(items[i].0, items[i].1) <= m
    requires LinesWithin(0, rest, m)
    ensures LinesWithin(0, DumpHeaders(CONNECT, items) + rest, m)
    decreases |items|
  {
    if items == [] {
      assert DumpHeaders(CONNECT, items) + rest == rest;
    } else {
      var (k, v) := items[0];
      var tail := DumpHeaders(CONNECT, items[1..]) + rest;
      HeadersWithin(items[1..], rest, m);
      ConnectLineIsDumped(k, v);
      LineWithin(ConnectLine(k, v), tail, 0, m);
      assert DumpHeaders(CONNECT, items) + rest == ConnectLine(k, v) + [LF] + tail;
    }
  }

  lemma DumpWithin(f: Frame, m: nat)
    requires f.Frame? && f.command == CONNECT && WellTyped(f) && Within(f.headers, m)
    ensures LinesWithin(0, DumpFrame(f), m)
  {
    var items, end := SortedItems(f.headers), [LF] + (f.body + [NUL]);
    SortedItemsSpec(f.headers);
    FirstWinsItems(items);
    assert end[1..] == [NUL] && [NUL][1..] == [];
    HeadersWithin(items, end, m);
    DumpShape(f);
    SlashesNone(NameBytes(CONNECT));
    LineWithin(NameBytes(CONNECT), DumpHeaders(CONNECT, items) + end, 0, m);
  }

  /** A CONNECT frame that comes back has no backslash: the headers with the most would need twice as many. */
  lemma {:induction false} NoSlashes(toInt: ToInt, st: ParserState, f: Frame, m: nat)
    requires IsBetween(st) && f.Frame? && f.command == CONNECT && WellTyped(f) && Within(f.headers, m)
    requires Feed(toInt, st, DumpFrame(f)).frames == [f]
    ensures Within(f.headers, 0)
    decreases m
  {
    if m > 0 {
      DumpWithin(f, m);
      FeedMeek(toInt, st, DumpFrame(f), 0, m);
      assert [f][0] == f;
      NoSlashes(toInt, st, f, m / 2);
    }
  }

  function AllSlashes(items: seq<(string, string)>): nat
  {
    if items == [] then 0 else HeaderSlashes(items[0].0, items[0].1) + AllSlashes(items[1..])
  }

  lemma {:induction false} EachWithinAll(items: seq<(string, string)>)
    ensures forall i :: 0 <= i < |items| ==> HeaderSlashes(items[i].0, items[i].1) <= AllSlashes(items)
  {
    if items != [] {
      EachWithinAll(items[1..]);
      assert forall i :: 0 < i < |items| ==> items[i] == items[1..][i - 1];
    }
  }

  /** Every key has a place in the sorted items. */
  lemma {:induction false} KeyHasItem(items: seq<(string, string)>, k: string)
    requires k in FirstWins(items)
    ensures exists i :: 0 <= i < |items| && items[i].0 == k && items[i].1 == FirstWins(items)[k]
  {
    if items[0].0 != k {
      KeyHasItem(items[1..], k);
      var j :| 0 <= j < |items[1..]| && items[1..][j].0 == k && items[1..][j].1 == FirstWins(items[1..])[k];
      assert items[j + 1] == items[1..][j];
    } else {
      assert items[0].1 == FirstWins(items)[k];
    }
  }

  lemma ReturnedIsSlashFree(toInt: ToInt, st: ParserState, f: Frame)
    requires IsBetween(st) && f.Frame? && f.command == CONNECT && WellTyped(f)
    requires Feed(toInt, st, DumpFrame(f)).frames == [f]
    ensures FreeOf(f.headers, '\\')
  {
    var items := SortedItems(f.headers);
    SortedItemsSpec(f.headers);
    EachWithinAll(items);
    forall k | k in f.headers ensures HeaderSlashes(k, f.headers[k]) <= AllSlashes(items) {
      KeyHasItem(items, k);
    }
    NoSlashes(toInt, st, f, AllSlashes(items));
    forall k | k in f.headers ensures '\\' !in k && '\\' !in f.headers[k] {
      EncodeAsciiIn(k, '\\');
      EncodeAsciiIn(f.headers[k], '\\');
      SlashesNone(Encode(k));
      SlashesNone(Encode(f.headers[k]));
      assert HeaderSlashes(k, f.headers[k]) == 0;
    }
  }

  // ------------------------------------------------------------------------------------------
  // Without backslashes no colon and no newline comes back
  // ------------------------------------------------------------------------------------------

  lemma {:induction false} UnescapePlain(bs: seq<byte>)
    requires BACKSLASH !in bs
    ensures Unescape(bs) == bs
  {
    if bs != [] { UnescapePlain(bs[1..]); }
  }

  predicate PlainText(s: string) { '\n' !in s && ':' !in s && '\\' !in s }

  lemma PlainBytes(s: string)
    ensures PlainText(s) <==> LF !in Encode(s) && COLON !in Encode(s) && BACKSLASH !in Encode(s)
  {
    EncodeAsciiIn(s, '\n');
    EncodeAsciiIn(s, ':');
    EncodeAsciiIn(s, '\\');
  }

  lemma HeaderOfPlain(line: seq<byte>)
    requires BACKSLASH !in line && LF !in line && HeaderOf(line).Some?
    ensures PlainText(HeaderOf(line).value.0) && PlainText(HeaderOf(line).value.1)
  {
    AutomatonSplits(line);
    var (k, v) := HeaderOf(line).value;
    var i := IndexOf(line, COLON);
    UnescapePlain(line[..i]);
    UnescapePlain(line[i + 1..]);
    DecodeIsExact(line[..i], k);
    DecodeIsExact(line[i + 1..], v);
    PlainBytes(k);
    PlainBytes(v);
  }

  ghost predicate PlainState(st: ParserState)
  {
    Consistent(st) && Plain(st.headers) && (!st.headersProcessed ==> BACKSLASH !in st.buf)
  }

  lemma StepPlain(toInt: ToInt, st: ParserState, b: byte)
    requires PlainState(st) && b != BACKSLASH
    ensures PlainState(Step(toInt, st, b).state)
    ensures forall i :: 0 <= i < |Step(toInt, st, b).frames| && Step(toInt, st, b).frames[i].Frame? ==>
              Plain(Step(toInt, st, b).frames[i].headers)
  {
    StepKeepsConsistent(toInt, st, b);
    if b == LF && !st.headersProcessed && st.command.Some? && HeaderOf(Line(st)).Some? {
      HeaderOfPlain(Line(st));
    }
  }

  lemma {:induction false} FeedPlain(toInt: ToInt, st: ParserState, bs: seq<byte>)
    requires PlainState(st) && BACKSLASH !in bs
    ensures forall i :: 0 <= i < |Feed(toInt, st, bs).frames| && Feed(toInt, st, bs).frames[i].Frame? ==>
              Plain(Feed(toInt, st, bs).frames[i].headers)
    decreases |bs|
  {
    if bs != [] {
      StepPlain(toInt, st, bs[0]);
      FeedPlain(toInt, Step(toInt, st, bs[0]).state, bs[1..]);
    }
  }

  lemma {:induction false} HeadersSlashFree(items: seq<(string, string)>)
    requires forall i :: 0 <= i < |items| ==> '\\' !in items[i].0 && '\\' !in items[i].1
    ensures BACKSLASH !in DumpHeaders(CONNECT, items)
  {
    if items != [] {
      HeadersSlashFree(items[1..]);
      ConnectLineIsDumped(items[0].0, items[0].1);
      EncodeAsciiIn(items[0].0, '\\');
      EncodeAsciiIn(items[0].1, '\\');
    }
  }

  lemma ReturnedIsPlain(toInt: ToInt, st: ParserState, f: Frame)
    requires IsBetween(st) && st.previous != Some(CR) && f.Frame? && f.command == CONNECT && WellTyped(f)
    requires Feed(toInt, st, DumpFrame(f)).frames == [f]
    ensures Plain(f.headers) && FreeOf(f.headers, '\0')
  {
    ReturnedIsSlashFree(toInt, st, f);
    ItemsOf(f.headers);
    HeadersSlashFree(SortedItems(f.headers));
    DumpShape(f);
    FeedPlain(toInt, st, DumpFrame(f));
    FeedIsNulFree(toInt, st, DumpFrame(f));
    assert [f][0] == f;
  }

  // ------------------------------------------------------------------------------------------
  // Reading the dump of plain headers
  // ------------------------------------------------------------------------------------------

  function ChompText(s: string): string
  {
    if EndsInCR(s) then s[..|s| - 1] else s
  }

  function ChompItems(items: seq<(string, string)>): (r: seq<(string, string)>)
    ensures |r| == |items| && forall i :: 0 <= i < |items| ==> r[i] == (items[i].0, ChompText(items[i].1))
  {
    if items == [] then [] else [(items[0].0, ChompText(items[0].1))] + ChompItems(items[1..])
  }

  lemma ChompLine(k: string, v: string)
    ensures Chomp(ConnectLine(k, v)) == ConnectLine(k, ChompText(v))
  {
    var w := ConnectLine(k, v);
    if v != "" {
      var n := |v| - 1;
      EncodeConcat(v[..n], [v[n]]);
      EncodeOne(v[n]);
      assert v == v[..n] + [v[n]];
      assert w == Encode(k) + [COLON] + Encode(v[..n]) + EncodeChar(v[n]);
    }
  }

  lemma ConnectHeader(k: string, v: string)
    requires PlainText(k) && PlainText(v)
    ensures HeaderOf(ConnectLine(k, v)) == Some((k, v))
  {
    var line := ConnectLine(k, v);
    PlainBytes(k);
    PlainBytes(v);
    AutomatonSplits(line);
    var i := IndexOf(line, COLON);
    assert line[|Encode(k)|] == COLON && i == |Encode(k)|;
    assert line[..i] == Encode(k) && line[i + 1..] == Encode(v);
    UnescapePlain(Encode(k));
    UnescapePlain(Encode(v));
    DecodeEncode(k);
    DecodeEncode(v);
  }

  lemma ConnectLineFed(toInt: ToInt, h: Headers, n: Option<int>, k: string, v: string, rest: seq<byte>,
                       h1: Headers, n1: Option<int>)
    requires PlainText(k) && PlainText(v) && '\0' !in k && '\0' !in v
    requires (h1, n1) == AddHeader(toInt, h, n, k, ChompText(v))
    ensures Feed(toInt, InHeaders(CONNECT, h, n), ConnectLine(k, v) + [LF] + rest)
         == Feed(toInt, InHeaders(CONNECT, h1, n1), rest)
  {
    var w := ConnectLine(k, v);
    PlainBytes(k);
    PlainBytes(v);
    EncodeAsciiIn(k, '\0');
    EncodeAsciiIn(v, '\0');
    ChompLine(k, v);
    ConnectHeader(k, ChompText(v));
    assert AfterLine(toInt, InHeaders(CONNECT, h, n), w) == InHeaders(CONNECT, h1, n1);
    LineFed(toInt, InHeaders(CONNECT, h, n), w, rest, InHeaders(CONNECT, h1, n1));
  }

  lemma {:induction false} ConnectHeadersFed(toInt: ToInt, h: Headers, n: Option<int>, items: seq<(string, string)>,
                                             rest: seq<byte>, h1: Headers, n1: Option<int>)
    requires forall i :: 0 <= i < |items| ==> PlainText(items[i].0) && PlainText(items[i].1)
    requires forall i :: 0 <= i < |items| ==> '\0' !in items[i].0 && '\0' !in items[i].1
    requires (h1, n1) == AddAll(toInt, ChompItems(items), h, n)
    ensures Feed(toInt, InHeaders(CONNECT, h, n), DumpHeaders(CONNECT, items) + rest)
         == Feed(toInt, InHeaders(CONNECT, h1, n1), rest)
    decreases |items|
  {
    if items == [] {
      assert DumpHeaders(CONNECT, items) + rest == rest;
    } else {
      var (k, v) := items[0];
      var (h0, n0) := AddHeader(toInt, h, n, k, ChompText(v));
      var tail := DumpHeaders(CONNECT, items[1..]) + rest;
      ConnectLineIsDumped(k, v);
      assert DumpHeaders(CONNECT, items) + rest == ConnectLine(k, v) + [LF] + tail;
      assert ChompItems(items)[1..] == ChompItems(items[1..]);
      ConnectHeadersFed(toInt, h0, n0, items[1..], rest, h1, n1);
      ConnectLineFed(toInt, h, n, k, v, tail, h0, n0);
    }
  }

  lemma ConnectPreambleFed(toInt: ToInt, st: ParserState, f: Frame, h: Headers, n: Option<int>)
    requires IsBetween(st) && st.previous != Some(CR)
    requires f.Frame? && f.command == CONNECT && WellTyped(f) && Plain(f.headers) && FreeOf(f.headers, '\0')
    requires (h, n) == AddAll(toInt, ChompItems(SortedItems(f.headers)), map[], None)
    ensures Feed(toInt, st, DumpFrame(f)) == Feed(toInt, InBody(CONNECT, h, n), [NUL])
  {
    var items := SortedItems(f.headers);
    ItemsOf(f.headers);
    assert f.body + [NUL] == [NUL];
    ConnectHeadersFed(toInt, map[], None, items, [LF] + [NUL], h, n);
    BlankFed(toInt, CONNECT, h, n, [NUL]);
    DumpShape(f);
    CommandFed(toInt, st, CONNECT, DumpHeaders(CONNECT, items) + ([LF] + [NUL]));
  }

  /** The values come back but for one trailing carriage return each. */
  lemma ConnectHeadersReturned(toInt: ToInt, m: Headers)
    ensures AddAll(toInt, ChompItems(SortedItems(m)), map[], None).0 == m <==> forall k :: k in m ==> !EndsInCR(m[k])
    ensures (forall k :: k in m ==> !EndsInCR(m[k])) ==> ChompItems(SortedItems(m)) == SortedItems(m)
  {
    var items := SortedItems(m);
    var read := ChompItems(items);
    SortedItemsSpec(m);
    FirstWinsItems(items);
    FirstWinsItems(read);
    AddAllIsFirstWins(toInt, read, map[], None);
    assert FirstWins(read) + map[] == FirstWins(read);
    if forall k :: k in m ==> !EndsInCR(m[k]) {
      assert forall i :: 0 <= i < |items| ==> read[i] == items[i];
      assert read == items;
    }
    if FirstWins(read) == m {
      forall k | k in m ensures !EndsInCR(m[k]) {
        KeyHasItem(items, k);
        var i :| 0 <= i < |items| && items[i].0 == k && items[i].1 == m[k];
        assert read[i].1 == m[k];
      }
    }
  }

  lemma ConnectCloses(toInt: ToInt, h: Headers, n: Option<int>)
    ensures Feed(toInt, InBody(CONNECT, h, n), [NUL])
         == if n.None? || n.value == 0 then Fed(Between(Some(NUL)), [Frame(CONNECT, h, [])])
            else Fed(InBody(CONNECT, h, n).(buf := [NUL], previous := Some(NUL)), [])
  {
    assert [NUL][1..] == [] && [] + [NUL] == [NUL];
  }

  /** For every CONNECT frame: its dump reads back as exactly that frame, leaving the parser between
      frames, if and only if its headers are free of NUL, newline, colon and backslash, no value
      ends in a carriage return, and the effective content length is absent or 0. */
  lemma ConnectRoundTrip(toInt: ToInt, st: ParserState, f: Frame)
    requires IsBetween(st) && st.previous != Some(CR)
    requires f.Frame? && f.command == CONNECT && WellTyped(f)
    ensures Feed(toInt, st, DumpFrame(f)) == Fed(Between(Some(NUL)), [f]) <==> ConnectSafe(toInt, f)
    ensures Feed(toInt, st, DumpFrame(f)).frames == [f] ==> ConnectSafe(toInt, f)
  {
    if Feed(toInt, st, DumpFrame(f)).frames == [f] {
      ReturnedIsPlain(toInt, st, f);
    }
    if Plain(f.headers) && FreeOf(f.headers, '\0') {
      var (h, n) := AddAll(toInt, ChompItems(SortedItems(f.headers)), map[], None);
      ConnectPreambleFed(toInt, st, f, h, n);
      ConnectHeadersReturned(toInt, f.headers);
      ConnectCloses(toInt, h, n);
      assert f == Frame(CONNECT, f.headers, []);
      if Feed(toInt, st, DumpFrame(f)).frames == [f] {
        assert [f][0] == Frame(CONNECT, h, []);
      }
    }
  }
}
