/** What a dump reads back as: exactly which escaped frames survive, and why any body does. */
module RoundTrip {
  import opened Bytes
  import opened Utf8
  import opened HeaderCodec
  import opened Decimal
  import opened Frames
  import opened Parser
  import opened Reference

  type ToInt = string -> Option<int>

  function InHeaders(c: Command, h: Headers, n: Option<int>): ParserState
  {
    ParserState([], Some(LF), false, Some(c), h, n)
  }

  function InBody(c: Command, h: Headers, n: Option<int>): ParserState
  {
    ParserState([], Some(LF), true, Some(c), h, n)
  }

  function StripItems(items: seq<(string, string)>): seq<(string, string)>
  {
    if items == [] then [] else [(StripText(items[0].0), StripText(items[0].1))] + StripItems(items[1..])
  }

  /** The header lines `items` read in order. */
  function AddAll(toInt: ToInt, items: seq<(string, string)>, h: Headers, n: Option<int>): (Headers, Option<int>)
    decreases |items|
  {
    if items == [] then (h, n)
    else
      var (h1, n1) := AddHeader(toInt, h, n, items[0].0, items[0].1);
      AddAll(toInt, items[1..], h1, n1)
  }

  /** The content length the parser ends up with: the last valid one in sorted order. */
  function EffectiveLength(toInt: ToInt, h: Headers): Option<int>
  {
    AddAll(toInt, SortedItems(h), map[], None).1
  }

  ghost predicate FreeOf(h: Headers, c: char)
  {
    forall k :: k in h ==> c !in k && c !in h[k]
  }

  /** What a caller must check for a frame to survive the wire. */
  ghost predicate Transmissible(toInt: ToInt, f: Frame)
  {
    f.Frame? ==>
      && FreeOf(f.headers, '\0')
      && FreeOf(f.headers, '\r')
      && (match EffectiveLength(toInt, f.headers)
          case None => NUL !in f.body
          case Some(n) => n == |f.body|)
  }

  // ------------------------------------------------------------------------------------------
  // Reading a dump, line by line
  // ------------------------------------------------------------------------------------------

  lemma {:induction false} LineEndIs(w: seq<byte>, b: byte, rest: seq<byte>)
    requires LF !in w && NUL !in w && (b == LF || b == NUL)
    ensures LineEnd(w + [b] + rest) == |w|
  {
    var s := w + [b] + rest;
    if w != [] {
      LineEndIs(w[1..], b, rest);
      assert s[1..] == w[1..] + [b] + rest;
    }
  }

  lemma LineFed(toInt: ToInt, st: ParserState, w: seq<byte>, rest: seq<byte>, next: ParserState)
    requires AtLineStart(st) && LF !in w && NUL !in w && (st.command.Some? || w != [])
    requires next == AfterLine(toInt, st, w)
    ensures Feed(toInt, st, w + [LF] + rest) == Feed(toInt, next, rest)
  {
    var s := w + [LF] + rest;
    LineEndIs(w, LF, rest);
    assert s[..|w|] == w && s[|w| + 1..] == rest;
    LineProcessed(toInt, st, s, next);
  }

  lemma CommandFed(toInt: ToInt, st: ParserState, c: Command, rest: seq<byte>)
    requires IsBetween(st) && st.previous != Some(CR)
    ensures Feed(toInt, st, NameBytes(c) + [LF] + rest) == Feed(toInt, InHeaders(c, map[], None), rest)
  {
    LookupName(c);
    var w := NameBytes(c);
    assert Chomp(w) == w;
    assert AfterLine(toInt, st, w) == InHeaders(c, map[], None);
    LineFed(toInt, st, w, rest, InHeaders(c, map[], None));
  }

  lemma HeaderFed(toInt: ToInt, c: Command, h: Headers, n: Option<int>, k: string, v: string, rest: seq<byte>,
                  h1: Headers, n1: Option<int>)
    requires '\0' !in k && '\0' !in v
    requires (h1, n1) == AddHeader(toInt, h, n, StripText(k), StripText(v))
    ensures Feed(toInt, InHeaders(c, h, n), DumpHeader(k, v) + rest) == Feed(toInt, InHeaders(c, h1, n1), rest)
  {
    HeaderRoundTrip(k, v);
    var w := HeaderLine(k, v);
    assert Chomp(w) == w && w != [];
    assert AfterLine(toInt, InHeaders(c, h, n), w) == InHeaders(c, h1, n1);
    LineFed(toInt, InHeaders(c, h, n), w, rest, InHeaders(c, h1, n1));
  }

  lemma OneHeaderLess(toInt: ToInt, c: Command, items: seq<(string, string)>, h: Headers, n: Option<int>, rest: seq<byte>)
    requires items != [] && c != CONNECT
    ensures DumpHeaders(c, items) + rest
         == DumpHeader(items[0].0, items[0].1) + (DumpHeaders(c, items[1..]) + rest)
    ensures AddAll(toInt, StripItems(items), h, n)
         == var (h0, n0) := AddHeader(toInt, h, n, StripText(items[0].0), StripText(items[0].1));
            AddAll(toInt, StripItems(items[1..]), h0, n0)
  {
    assert StripItems(items)[1..] == StripItems(items[1..]);
  }

  lemma {:induction false} HeadersFed(toInt: ToInt, c: Command, h: Headers, n: Option<int>,
                                      items: seq<(string, string)>, rest: seq<byte>, h1: Headers, n1: Option<int>)
    requires c != CONNECT
    requires forall i :: 0 <= i < |items| ==> '\0' !in items[i].0 && '\0' !in items[i].1
    requires (h1, n1) == AddAll(toInt, StripItems(items), h, n)
    ensures Feed(toInt, InHeaders(c, h, n), DumpHeaders(c, items) + rest) == Feed(toInt, InHeaders(c, h1, n1), rest)
    decreases |items|
  {
    if items == [] {
      assert DumpHeaders(c, items) + rest == rest;
    } else {
      var (k, v) := items[0];
      var (h0, n0) := AddHeader(toInt, h, n, StripText(k), StripText(v));
      var tail := DumpHeaders(c, items[1..]) + rest;
      OneHeaderLess(toInt, c, items, h, n, rest);
      HeadersFed(toInt, c, h0, n0, items[1..], rest, h1, n1);
      HeaderFed(toInt, c, h, n, k, v, tail, h0, n0);
    }
  }

  lemma BlankFed(toInt: ToInt, c: Command, h: Headers, n: Option<int>, rest: seq<byte>)
    ensures Feed(toInt, InHeaders(c, h, n), [LF] + rest) == Feed(toInt, InBody(c, h, n), rest)
  {
    EmptyIsNoCommand();
    assert [] + [LF] + rest == [LF] + rest;
    LineFed(toInt, InHeaders(c, h, n), [], rest, InBody(c, h, n));
  }

  lemma ItemsOf(h: Headers)
    ensures forall c: char :: FreeOf(h, c) ==>
              forall i :: 0 <= i < |SortedItems(h)| ==> c !in SortedItems(h)[i].0 && c !in SortedItems(h)[i].1
  {
    SortedItemsSpec(h);
    FirstWinsItems(SortedItems(h));
  }

  /** In a sorted list every entry is the first of its key. */
  lemma {:induction false} FirstWinsItems(items: seq<(string, string)>)
    requires Sorted(items)
    ensures forall i :: 0 <= i < |items| ==>
              items[i].0 in FirstWins(items) && FirstWins(items)[items[i].0] == items[i].1
  {
    if items != [] {
      FirstWinsItems(items[1..]);
      forall i | 0 <= i < |items|
        ensures items[i].0 in FirstWins(items) && FirstWins(items)[items[i].0] == items[i].1
      {
        if i > 0 {
          BelowTotal(items[0].0, items[i].0);
          assert items[i] == items[1..][i - 1];
        }
      }
    }
  }

  /** A dump with NUL-free headers is read up to its body with the carriage returns gone from the headers. */
  lemma PreambleFed(toInt: ToInt, st: ParserState, f: Frame, h: Headers, n: Option<int>)
    requires IsBetween(st) && st.previous != Some(CR)
    requires f.Frame? && f.command != CONNECT && WellTyped(f) && FreeOf(f.headers, '\0')
    requires (h, n) == AddAll(toInt, StripItems(SortedItems(f.headers)), map[], None)
    ensures Feed(toInt, st, DumpFrame(f)) == Feed(toInt, InBody(f.command, h, n), f.body + [NUL])
  {
    var c, items := f.command, SortedItems(f.headers);
    ItemsOf(f.headers);
    HeaderBlockFed(toInt, c, items, f.body + [NUL], h, n);
    DumpShape(f);
    CommandFed(toInt, st, c, DumpHeaders(c, items) + ([LF] + (f.body + [NUL])));
  }

  lemma DumpShape(f: Frame)
    requires f.Frame? && WellTyped(f)
    ensures DumpFrame(f) == NameBytes(f.command) + [LF]
                            + (DumpHeaders(f.command, SortedItems(f.headers)) + ([LF] + (f.body + [NUL])))
  {
  }

  lemma HeaderBlockFed(toInt: ToInt, c: Command, items: seq<(string, string)>, rest: seq<byte>, h: Headers, n: Option<int>)
    requires c != CONNECT
    requires forall i :: 0 <= i < |items| ==> '\0' !in items[i].0 && '\0' !in items[i].1
    requires (h, n) == AddAll(toInt, StripItems(items), map[], None)
    ensures Feed(toInt, InHeaders(c, map[], None), DumpHeaders(c, items) + ([LF] + rest))
         == Feed(toInt, InBody(c, h, n), rest)
  {
    HeadersFed(toInt, c, map[], None, items, [LF] + rest, h, n);
    BlankFed(toInt, c, h, n, rest);
  }

  // ------------------------------------------------------------------------------------------
  // The headers that come back
  // ------------------------------------------------------------------------------------------

  lemma {:induction false} AddAllIsFirstWins(toInt: ToInt, items: seq<(string, string)>, h: Headers, n: Option<int>)
    ensures AddAll(toInt, items, h, n).0 == FirstWins(items) + h
    decreases |items|
  {
    if items != [] {
      var (h1, n1) := AddHeader(toInt, h, n, items[0].0, items[0].1);
      AddAllIsFirstWins(toInt, items[1..], h1, n1);
    }
  }

  lemma {:induction false} StripItemsFixed(items: seq<(string, string)>)
    requires forall i :: 0 <= i < |items| ==> '\r' !in items[i].0 && '\r' !in items[i].1
    ensures StripItems(items) == items
  {
    if items != [] { StripItemsFixed(items[1..]); }
  }

  lemma {:induction false} StrippedIsFree(items: seq<(string, string)>)
    ensures FreeOf(FirstWins(StripItems(items)), '\r')
  {
    if items != [] {
      StrippedIsFree(items[1..]);
      assert StripItems(items)[1..] == StripItems(items[1..]);
    }
  }

  lemma HeadersReturned(toInt: ToInt, m: Headers)
    ensures AddAll(toInt, StripItems(SortedItems(m)), map[], None).0 == m <==> FreeOf(m, '\r')
    ensures FreeOf(m, '\r') ==> StripItems(SortedItems(m)) == SortedItems(m)
  {
    var items := SortedItems(m);
    AddAllIsFirstWins(toInt, StripItems(items), map[], None);
    assert FirstWins(StripItems(items)) + map[] == FirstWins(StripItems(items));
    StrippedIsFree(items);
    if FreeOf(m, '\r') {
      ItemsOf(m);
      StripItemsFixed(items);
      SortedItemsSpec(m);
    }
  }

  // ------------------------------------------------------------------------------------------
  // No parser output ever holds NUL in a header
  // ------------------------------------------------------------------------------------------

  lemma {:induction false} UnescapeKeepsNulOut(bs: seq<byte>)
    requires NUL !in bs
    ensures NUL !in Unescape(bs)
  {
    if bs != [] {
      if bs[0] != BACKSLASH {
        UnescapeKeepsNulOut(bs[1..]);
      } else if |bs| > 1 {
        UnescapeKeepsNulOut(bs[2..]);
      }
    }
  }

  lemma HeaderOfIsNulFree(line: seq<byte>)
    requires NUL !in line && HeaderOf(line).Some?
    ensures '\0' !in HeaderOf(line).value.0 && '\0' !in HeaderOf(line).value.1
  {
    AutomatonSplits(line);
    var (k, v) := HeaderOf(line).value;
    var i := IndexOf(line, COLON);
    UnescapeKeepsNulOut(line[..i]);
    UnescapeKeepsNulOut(line[i + 1..]);
    DecodeIsExact(Unescape(line[..i]), k);
    DecodeIsExact(Unescape(line[i + 1..]), v);
    EncodeAsciiIn(k, '\0');
    EncodeAsciiIn(v, '\0');
  }

  ghost predicate NulFreeFrame(f: Frame) { f.Frame? ==> FreeOf(f.headers, '\0') }

  lemma StepIsNulFree(toInt: ToInt, st: ParserState, b: byte)
    requires Consistent(st) && FreeOf(st.headers, '\0')
    ensures FreeOf(Step(toInt, st, b).state.headers, '\0')
    ensures forall i :: 0 <= i < |Step(toInt, st, b).frames| ==> NulFreeFrame(Step(toInt, st, b).frames[i])
  {
    if b == LF && !st.headersProcessed && st.command.Some? && HeaderOf(Line(st)).Some? {
      HeaderOfIsNulFree(Line(st));
    }
  }

  lemma {:induction false} FeedIsNulFree(toInt: ToInt, st: ParserState, bs: seq<byte>)
    requires Consistent(st) && FreeOf(st.headers, '\0')
    ensures forall i :: 0 <= i < |Feed(toInt, st, bs).frames| ==> NulFreeFrame(Feed(toInt, st, bs).frames[i])
    decreases |bs|
  {
    if bs != [] {
      var s := Step(toInt, st, bs[0]);
      StepIsNulFree(toInt, st, bs[0]);
      StepKeepsConsistent(toInt, st, bs[0]);
      FeedIsNulFree(toInt, s.state, bs[1..]);
    }
  }

  // ------------------------------------------------------------------------------------------
  // Exactly which frames survive
  // ------------------------------------------------------------------------------------------

  lemma NulCloses(toInt: ToInt, st: ParserState)
    requires st.headersProcessed && st.command.Some?
    requires st.contentLength.Some? ==> st.contentLength.value == |st.buf|
    ensures Feed(toInt, st, [NUL]) == Fed(Between(Some(NUL)), [MakeFrame(st.command.value, st.headers, st.buf)])
  {
    assert [NUL][1..] == [];
  }

  lemma BodyFed(toInt: ToInt, c: Command, h: Headers, n: Option<int>, body: seq<byte>)
    requires match n case None => NUL !in body case Some(k) => k == |body|
    ensures Feed(toInt, InBody(c, h, n), body + [NUL]) == Fed(Between(Some(NUL)), [MakeFrame(c, h, body)])
  {
    var st := InBody(c, h, n);
    assert st.buf + body == body;
    var full := st.(buf := body, previous := LastOf(st.previous, body));
    Absorb(toInt, st, body);
    FeedConcat(toInt, st, body, [NUL]);
    NulCloses(toInt, full);
  }

  /** If a body comes back as it was sent, its length was right (or absent, with no NUL inside). */
  lemma BodyExact(toInt: ToInt, c: Command, h: Headers, n: Option<int>, f: Frame)
    requires f.Frame? && WellTyped(f)
    requires ReadBody(toInt, c, h, n, f.body + [NUL]) == [f]
    ensures h == f.headers
    ensures match n case None => NUL !in f.body case Some(k) => k == |f.body|
  {
    var s := f.body + [NUL];
    var start := if n.Some? then n.value else 0;
    var end := BodyEnd(s, start);
    assert [f][0] == MakeFrame(c, h, if n.Some? then s[..start] else s[..end]);
    assert s[start..end] == s[start..][..end - start];
    if HasBody(c) {
      if n.None? {
        assert f.body == s[start..end];
      }
    } else {
      assert f.body == [];
    }
  }

  /** For every frame but CONNECT: its dump reads back as exactly that frame, leaving the parser
      between frames, if and only if the frame is transmissible. */
  lemma FrameRoundTrip(toInt: ToInt, st: ParserState, f: Frame)
    requires IsBetween(st) && st.previous != Some(CR)
    requires f.Frame? && f.command != CONNECT && WellTyped(f)
    ensures Feed(toInt, st, DumpFrame(f)) == Fed(Between(Some(NUL)), [f]) <==> Transmissible(toInt, f)
    ensures Feed(toInt, st, DumpFrame(f)).frames == [f] ==> Transmissible(toInt, f)
  {
    if !FreeOf(f.headers, '\0') {
      FeedIsNulFree(toInt, st, DumpFrame(f));
      assert [f][0] == f;
    } else {
      var (h, n) := AddAll(toInt, StripItems(SortedItems(f.headers)), map[], None);
      PreambleFed(toInt, st, f, h, n);
      HeadersReturned(toInt, f.headers);
      RefinesBody(toInt, InBody(f.command, h, n), f.body + [NUL]);
      if Transmissible(toInt, f) {
        BodyFed(toInt, f.command, h, n, f.body);
      } else if Feed(toInt, st, DumpFrame(f)).frames == [f] {
        BodyExact(toInt, f.command, h, n, f);
      }
    }
  }

  // ------------------------------------------------------------------------------------------
  // Any body survives SendFrame.build
  // ------------------------------------------------------------------------------------------

  /** Every other ASCII-case spelling of a word sorts before its lower-case spelling. */
  lemma {:induction false} SpellingsSortBefore(k: string)
    ensures k == Lower(k) || Below(k, Lower(k))
  {
    if k != "" {
      SpellingsSortBefore(k[1..]);
      assert Lower(k)[1..] == Lower(k[1..]);
    }
  }

  lemma {:induction false} LowerFixed(s: string)
    requires forall i :: 0 <= i < |s| ==> !('A' <= s[i] <= 'Z')
    ensures Lower(s) == s
  {
    if s != "" { LowerFixed(s[1..]); }
  }

  lemma ContentLengthIsLower(k: string)
    requires k == CONTENT_LENGTH
    ensures Lower(k) == k
  {
    LowerFixed(k);
  }

  /** The header announces a length. */
  predicate Announces(toInt: ToInt, k: string, v: string)
  {
    Lower(k) == CONTENT_LENGTH && toInt(v).Some?
  }

  predicate AnnouncesIn(toInt: ToInt, h: Headers, k: string) { k in h && Announces(toInt, k, h[k]) }

  /** The greatest key that announces a length. */
  ghost predicate Decides(toInt: ToInt, h: Headers, k: string)
  {
    AnnouncesIn(toInt, h, k) && forall j :: AnnouncesIn(toInt, h, j) && j != k ==> Below(j, k)
  }

  /** Of header lines with different keys, the last that announces a length decides. */
  lemma {:induction false} LastAnnounced(toInt: ToInt, items: seq<(string, string)>, h: Headers, n: Option<int>)
    requires Sorted(items) && forall i :: 0 <= i < |items| ==> items[i].0 !in h
    ensures (forall i :: 0 <= i < |items| ==> !Announces(toInt, items[i].0, items[i].1)) ==> AddAll(toInt, items, h, n).1 == n
    ensures forall i :: 0 <= i < |items| && Announces(toInt, items[i].0, items[i].1)
              && (forall j :: i < j < |items| ==> !Announces(toInt, items[j].0, items[j].1))
              ==> AddAll(toInt, items, h, n).1 == toInt(items[i].1)
    decreases |items|
  {
    if items != [] {
      var (h1, n1) := AddHeader(toInt, h, n, items[0].0, items[0].1);
      forall i | 0 <= i < |items[1..]| ensures items[1..][i].0 !in h1 && items[1..][i] == items[i + 1] {
        BelowTotal(items[0].0, items[i + 1].0);
      }
      LastAnnounced(toInt, items[1..], h1, n1);
      assert forall i :: 0 < i < |items| ==> items[i] == items[1..][i - 1];
    }
  }

  lemma {:induction false} LastIndex(toInt: ToInt, items: seq<(string, string)>, i: nat) returns (m: nat)
    requires i < |items| && Announces(toInt, items[i].0, items[i].1)
    ensures i <= m < |items| && Announces(toInt, items[m].0, items[m].1)
    ensures forall j :: m < j < |items| ==> !Announces(toInt, items[j].0, items[j].1)
    decreases |items| - i
  {
    m := i;
    if j :| i < j < |items| && Announces(toInt, items[j].0, items[j].1) {
      m := LastIndex(toInt, items, j);
    }
  }

  lemma {:induction false} KeyHasPosition(items: seq<(string, string)>, k: string) returns (j: nat)
    requires k in FirstWins(items)
    ensures j < |items| && items[j].0 == k
  {
    if items[0].0 == k {
      j := 0;
    } else {
      j := KeyHasPosition(items[1..], k);
      j := j + 1;
    }
  }

  /** A key has a place in the sorted items, with its value. */
  lemma ItemOf(h: Headers, k: string) returns (j: nat)
    requires k in h
    ensures j < |SortedItems(h)| && SortedItems(h)[j] == (k, h[k])
  {
    SortedItemsSpec(h);
    FirstWinsItems(SortedItems(h));
    j := KeyHasPosition(SortedItems(h), k);
  }

  lemma ItemsAreHeaders(h: Headers)
    ensures Sorted(SortedItems(h))
    ensures forall i :: 0 <= i < |SortedItems(h)| ==> SortedItems(h)[i].0 in h && h[SortedItems(h)[i].0] == SortedItems(h)[i].1
  {
    SortedItemsSpec(h);
    FirstWinsItems(SortedItems(h));
  }

  /** The last item that announces a length has the greatest such key. */
  lemma LastDecides(toInt: ToInt, h: Headers, m: nat)
    requires m < |SortedItems(h)| && Announces(toInt, SortedItems(h)[m].0, SortedItems(h)[m].1)
    requires forall j :: m < j < |SortedItems(h)| ==> !Announces(toInt, SortedItems(h)[j].0, SortedItems(h)[j].1)
    ensures Decides(toInt, h, SortedItems(h)[m].0)
  {
    var items := SortedItems(h);
    ItemsAreHeaders(h);
    forall k | AnnouncesIn(toInt, h, k) && k != items[m].0 ensures Below(k, items[m].0) {
      var j := ItemOf(h, k);
      assert j < m;
    }
  }

  /** The effective length is that of the greatest spelling of content-length whose value is a number,
      and there is none exactly if there is no such spelling. */
  lemma EffectiveLengthIs(toInt: ToInt, h: Headers)
    ensures match EffectiveLength(toInt, h)
            case None => forall k :: !AnnouncesIn(toInt, h, k)
            case Some(n) => exists k :: Decides(toInt, h, k) && toInt(h[k]) == Some(n)
  {
    var items := SortedItems(h);
    ItemsAreHeaders(h);
    LastAnnounced(toInt, items, map[], None);
    if i :| 0 <= i < |items| && Announces(toInt, items[i].0, items[i].1) {
      var m := LastIndex(toInt, items, i);
      LastDecides(toInt, h, m);
    } else {
      forall k | k in h ensures !AnnouncesIn(toInt, h, k) {
        var j := ItemOf(h, k);
      }
    }
  }

  /** An all-lowercase content-length beats every other spelling, wherever they came from. */
  lemma LowercaseWins(toInt: ToInt, h: Headers)
    requires CONTENT_LENGTH in h && toInt(h[CONTENT_LENGTH]).Some?
    ensures EffectiveLength(toInt, h) == toInt(h[CONTENT_LENGTH])
  {
    ContentLengthIsLower(CONTENT_LENGTH);
    EffectiveLengthIs(toInt, h);
    assert AnnouncesIn(toInt, h, CONTENT_LENGTH);
    var k :| Decides(toInt, h, k) && toInt(h[k]) == EffectiveLength(toInt, h);
    SpellingsSortBefore(k);
    BelowTotal(k, CONTENT_LENGTH);
  }

  lemma {:induction false} PrintNatIsPlain(n: nat, c: char)
    requires !IsDigit(c)
    ensures c !in PrintNat(n)
  {
    if n >= 10 { PrintNatIsPlain(n / 10, c); }
  }

  lemma BuildIsFreeOf(body: seq<byte>, destination: string, transaction: Option<string>, contentType: Option<string>,
                      headers: Headers, c: char)
    requires FreeOf(headers, c) && c !in destination && c != '-' && !IsDigit(c) && !('a' <= c <= 'z')
    requires transaction.Some? ==> c !in transaction.value
    requires contentType.Some? ==> c !in contentType.value
    ensures FreeOf(BuildSend(body, destination, transaction, contentType, true, headers).headers, c)
  {
    PrintNatIsPlain(|body|, c);
    UpdateIsFreeOf(headers, "destination", destination, c);
    var h := headers["destination" := destination];
    UpdateIsFreeOf(h, "content-length", Print(|body|), c);
    h := h["content-length" := Print(|body|)];
    if contentType.Some? {
      UpdateIsFreeOf(h, "content-type", contentType.value, c);
      h := h["content-type" := contentType.value];
    }
    if transaction.Some? {
      UpdateIsFreeOf(h, "transaction", transaction.value, c);
    }
  }

  lemma UpdateIsFreeOf(h: Headers, k: string, v: string, c: char)
    requires FreeOf(h, c) && c !in k && c !in v
    ensures FreeOf(h[k := v], c)
  {
  }

  /** `SendFrame.build` with a content length makes any body transmissible, NUL bytes and stray
      spellings of content-length in the caller's headers included. */
  lemma AnyBodySurvives(toInt: ToInt, body: seq<byte>, destination: string, transaction: Option<string>,
                        contentType: Option<string>, headers: Headers, chunks: seq<seq<byte>>)
    requires InvertsPrint(toInt)
    requires FreeOf(headers, '\0') && '\0' !in destination
    requires FreeOf(headers, '\r') && '\r' !in destination
    requires transaction.Some? ==> '\0' !in transaction.value && '\r' !in transaction.value
    requires contentType.Some? ==> '\0' !in contentType.value && '\r' !in contentType.value
    requires Flatten(chunks) == DumpFrame(BuildSend(body, destination, transaction, contentType, true, headers))
    ensures FeedChunks(toInt, Between(None), chunks)
         == Fed(Between(Some(NUL)), [BuildSend(body, destination, transaction, contentType, true, headers)])
  {
    var f := BuildSend(body, destination, transaction, contentType, true, headers);
    BuildIsFreeOf(body, destination, transaction, contentType, headers, '\0');
    BuildIsFreeOf(body, destination, transaction, contentType, headers, '\r');
    LowercaseWins(toInt, f.headers);
    FrameRoundTrip(toInt, Between(None), f);
    ChunkingIsInvisible(toInt, Between(None), chunks);
  }
}
