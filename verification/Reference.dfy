/** A whole-stream reading of the wire format, and the proof that the incremental parser refines it. */
module Reference {
  import opened Bytes
  import opened HeaderCodec
  import opened Frames
  import opened Parser

  /** The position of the first newline or NUL, or the length if there is neither. */
  function LineEnd(s: seq<byte>): (i: nat)
    ensures i <= |s|
    ensures LF !in s[..i] && NUL !in s[..i]
    ensures i < |s| ==> s[i] == LF || s[i] == NUL
  {
    if s == [] || s[0] == LF || s[0] == NUL then 0 else 1 + LineEnd(s[1..])
  }

  /** A line without the one carriage return that may end it. */
  function Chomp(line: seq<byte>): seq<byte>
  {
    if line != [] && line[|line| - 1] == CR then line[..|line| - 1] else line
  }

  /** Between frames: a bare newline is a heartbeat, a line is a command or noise, NUL is skipped. */
  function ReadFrames(toInt: string -> Option<int>, s: seq<byte>): seq<Frame>
    decreases |s|
  {
    var i := LineEnd(s);
    if i == |s| then []
    else if s[i] == NUL then ReadFrames(toInt, s[i + 1..])
    else if i == 0 then [Heartbeat] + ReadFrames(toInt, s[1..])
    else
      match Lookup(Chomp(s[..i]))
      case None => ReadFrames(toInt, s[i + 1..])
      case Some(c) => ReadHeaders(toInt, c, map[], None, s[i + 1..])
  }

  /** Header lines up to a blank one; NUL before it abandons the frame. */
  function ReadHeaders(toInt: string -> Option<int>, c: Command, headers: Headers, length: Option<int>, s: seq<byte>)
    : seq<Frame>
    decreases |s|
  {
    var i := LineEnd(s);
    if i == |s| then []
    else if s[i] == NUL then ReadFrames(toInt, s[i + 1..])
    else
      var line := Chomp(s[..i]);
      if line == [] then ReadBody(toInt, c, headers, length, s[i + 1..])
      else
        var (h, n) := AddLine(toInt, headers, length, line);
        ReadHeaders(toInt, c, h, n, s[i + 1..])
  }

  /** The first NUL at or after `start`. */
  function BodyEnd(s: seq<byte>, start: nat): (end: nat)
    requires start <= |s|
    ensures start <= end <= |s| && NUL !in s[start..end]
    ensures end < |s| ==> s[end] == NUL
  {
    var i := IndexOf(s[start..], NUL);
    assert s[start..start + i] == s[start..][..i];
    start + i
  }

  /** The body: the announced number of bytes, then anything up to NUL; without a length, up to NUL. */
  function ReadBody(toInt: string -> Option<int>, c: Command, headers: Headers, length: Option<int>, s: seq<byte>)
    : seq<Frame>
    decreases |s|
  {
    var start := if length.Some? then length.value else 0;
    if !(0 <= start <= |s|) then []
    else
      var end := BodyEnd(s, start);
      if end == |s| then []
      else [MakeFrame(c, headers, if length.Some? then s[..start] else s[..end])] + ReadFrames(toInt, s[end + 1..])
  }

  // ------------------------------------------------------------------------------------------
  // Runs of bytes that only fill the buffer
  // ------------------------------------------------------------------------------------------

  function LastOf(previous: Option<byte>, w: seq<byte>): Option<byte>
  {
    if w == [] then previous else Some(w[|w| - 1])
  }

  /** `w` is appended to the buffer and completes nothing. */
  predicate Absorbs(st: ParserState, w: seq<byte>)
  {
    if !st.headersProcessed then LF !in w && NUL !in w
    else if st.contentLength.None? then NUL !in w
    else st.contentLength.value < 0 || |st.buf| + |w| <= st.contentLength.value
  }

  lemma AbsorbByte(toInt: string -> Option<int>, st: ParserState, w: seq<byte>)
    requires w != [] && Absorbs(st, w)
    requires st.headersProcessed ==> st.command.Some?
    ensures Step(toInt, st, w[0]) == Fed(st.(buf := st.buf + [w[0]], previous := Some(w[0])), [])
    ensures Absorbs(st.(buf := st.buf + [w[0]], previous := Some(w[0])), w[1..])
  {
  }

  lemma {:induction false} Absorb(toInt: string -> Option<int>, st: ParserState, w: seq<byte>)
    requires Absorbs(st, w)
    requires st.headersProcessed ==> st.command.Some?
    ensures Feed(toInt, st, w) == Fed(st.(buf := st.buf + w, previous := LastOf(st.previous, w)), [])
    decreases |w|
  {
    if w == [] {
      assert st.buf + w == st.buf;
    } else {
      var st1 := st.(buf := st.buf + [w[0]], previous := Some(w[0]));
      AbsorbByte(toInt, st, w);
      Absorb(toInt, st1, w[1..]);
      assert st1.buf + w[1..] == st.buf + w;
      FeedSilent(toInt, st, w, st1);
    }
  }

  /** Bytes beyond the announced length are dropped until NUL. */
  lemma {:induction false} Skip(toInt: string -> Option<int>, st: ParserState, w: seq<byte>)
    requires st.headersProcessed && st.contentLength == Some(|st.buf|) && NUL !in w
    ensures Feed(toInt, st, w) == Fed(st.(previous := LastOf(st.previous, w)), [])
    decreases |w|
  {
    if w != [] {
      Skip(toInt, st.(previous := Some(w[0])), w[1..]);
    }
  }

  /** Absorbing a prefix and then reading on. */
  lemma AbsorbPrefix(toInt: string -> Option<int>, st: ParserState, s: seq<byte>, i: nat, full: ParserState)
    requires i <= |s| && Absorbs(st, s[..i])
    requires st.headersProcessed ==> st.command.Some?
    requires full == st.(buf := st.buf + s[..i], previous := LastOf(st.previous, s[..i]))
    ensures Feed(toInt, st, s) == Feed(toInt, full, s[i..])
  {
    Absorb(toInt, st, s[..i]);
    FeedConcat(toInt, st, s[..i], s[i..]);
    assert s[..i] + s[i..] == s;
    EmptyFrames(Feed(toInt, full, s[i..]));
  }

  lemma EmptyFrames(f: Fed)
    ensures Prepend([], f) == f
  {
  }

  // ------------------------------------------------------------------------------------------
  // Refinement
  // ------------------------------------------------------------------------------------------

  /** A parser at the start of a line. */
  predicate AtLineStart(st: ParserState)
  {
    !st.headersProcessed && st.buf == [] && st.previous != Some(CR)
  }

  /** The state in which a line's terminator is met. */
  function Collected(st: ParserState, line: seq<byte>): ParserState
  {
    st.(buf := line, previous := LastOf(st.previous, line))
  }

  lemma Then(toInt: string -> Option<int>, st: ParserState, s: seq<byte>, i: nat, full: ParserState, next: ParserState)
    requires i < |s| && Feed(toInt, st, s) == Feed(toInt, full, s[i..])
    requires Step(toInt, full, s[i]) == Fed(next, [])
    ensures Feed(toInt, st, s) == Feed(toInt, next, s[i + 1..])
  {
    var rest := s[i..];
    assert rest[1..] == s[i + 1..] && rest[0] == s[i];
    FeedSilent(toInt, full, rest, next);
  }

  lemma LineCollected(toInt: string -> Option<int>, st: ParserState, s: seq<byte>, full: ParserState)
    requires AtLineStart(st) && full == Collected(st, s[..LineEnd(s)])
    ensures Feed(toInt, st, s) == Feed(toInt, full, s[LineEnd(s)..])
  {
    var i := LineEnd(s);
    assert st.buf + s[..i] == s[..i];
    AbsorbPrefix(toInt, st, s, i, full);
  }

  lemma StepNewline(toInt: string -> Option<int>, st: ParserState, line: seq<byte>)
    requires AtLineStart(st) && (st.command.Some? || line != [])
    ensures Step(toInt, Collected(st, line), LF) == Fed(AfterLine(toInt, st, line), [])
  {
    var full := Collected(st, line);
    assert Line(full) == Chomp(line);
    assert ProcessLine(toInt, full, Chomp(line)).(previous := Some(LF))
        == ProcessLine(toInt, st, Chomp(line)).(previous := Some(LF));
  }

  /** The state after a complete line. */
  function AfterLine(toInt: string -> Option<int>, st: ParserState, line: seq<byte>): ParserState
  {
    ProcessLine(toInt, st, Chomp(line)).(previous := Some(LF))
  }

  lemma LineProcessed(toInt: string -> Option<int>, st: ParserState, s: seq<byte>, next: ParserState)
    requires AtLineStart(st) && LineEnd(s) < |s| && s[LineEnd(s)] == LF
    requires st.command.Some? || LineEnd(s) != 0
    requires next == AfterLine(toInt, st, s[..LineEnd(s)])
    ensures Feed(toInt, st, s) == Feed(toInt, next, s[LineEnd(s) + 1..])
  {
    var i := LineEnd(s);
    var full := Collected(st, s[..i]);
    StepNewline(toInt, st, s[..i]);
    LineCollected(toInt, st, s, full);
    Then(toInt, st, s, i, full, next);
  }

  lemma LineAbandoned(toInt: string -> Option<int>, st: ParserState, s: seq<byte>, next: ParserState)
    requires AtLineStart(st) && LineEnd(s) < |s| && s[LineEnd(s)] == NUL
    requires next == Between(Some(NUL))
    ensures Feed(toInt, st, s) == Feed(toInt, next, s[LineEnd(s) + 1..])
  {
    var i := LineEnd(s);
    var full := Collected(st, s[..i]);
    LineCollected(toInt, st, s, full);
    Then(toInt, st, s, i, full, next);
  }

  lemma LineCutShort(toInt: string -> Option<int>, st: ParserState, s: seq<byte>)
    requires AtLineStart(st) && LineEnd(s) == |s|
    ensures Feed(toInt, st, s).frames == []
  {
    assert s[..|s|] == s;
    Absorb(toInt, st, s);
  }

  lemma {:induction false} RefinesFrames(toInt: string -> Option<int>, st: ParserState, s: seq<byte>)
    requires IsBetween(st) && st.previous != Some(CR)
    ensures Feed(toInt, st, s).frames == ReadFrames(toInt, s)
    decreases |s|, 0
  {
    var i := LineEnd(s);
    if i == |s| {
      LineCutShort(toInt, st, s);
    } else if s[i] == NUL {
      LineAbandoned(toInt, st, s, Between(Some(NUL)));
      RefinesFrames(toInt, Between(Some(NUL)), s[i + 1..]);
    } else if i == 0 {
      RefinesFrames(toInt, Between(Some(LF)), s[1..]);
    } else {
      var st1 := AfterLine(toInt, st, s[..i]);
      LineProcessed(toInt, st, s, st1);
      if Lookup(Chomp(s[..i])).None? {
        RefinesFrames(toInt, st1, s[i + 1..]);
      } else {
        EmptyIsNoCommand();
        RefinesHeaders(toInt, st1, s[i + 1..]);
      }
    }
  }

  lemma AfterHeaderLine(toInt: string -> Option<int>, st: ParserState, line: seq<byte>, next: ParserState)
    requires st.command.Some? && next == AfterLine(toInt, st, line)
    ensures next.command == st.command && next.buf == [] && next.previous == Some(LF)
    ensures next.headersProcessed == (Chomp(line) == [])
    ensures (next.headers, next.contentLength) == AddLine(toInt, st.headers, st.contentLength, Chomp(line))
    ensures Chomp(line) == [] ==> next.headers == st.headers && next.contentLength == st.contentLength
  {
    EmptyIsNoCommand();
  }

  lemma {:induction false} RefinesHeaders(toInt: string -> Option<int>, st: ParserState, s: seq<byte>)
    requires st.command.Some? && AtLineStart(st)
    ensures Feed(toInt, st, s).frames == ReadHeaders(toInt, st.command.value, st.headers, st.contentLength, s)
    decreases |s|, 1
  {
    var i := LineEnd(s);
    if i == |s| {
      LineCutShort(toInt, st, s);
    } else if s[i] == NUL {
      LineAbandoned(toInt, st, s, Between(Some(NUL)));
      RefinesFrames(toInt, Between(Some(NUL)), s[i + 1..]);
    } else {
      var next := AfterLine(toInt, st, s[..i]);
      LineProcessed(toInt, st, s, next);
      AfterHeaderLine(toInt, st, s[..i], next);
      if next.headersProcessed {
        RefinesBody(toInt, next, s[i + 1..]);
      } else {
        RefinesHeaders(toInt, next, s[i + 1..]);
      }
    }
  }

  lemma {:induction false} RefinesBody(toInt: string -> Option<int>, st: ParserState, s: seq<byte>)
    requires st.command.Some? && st.headersProcessed && st.buf == []
    ensures Feed(toInt, st, s).frames == ReadBody(toInt, st.command.value, st.headers, st.contentLength, s)
    decreases |s|, 2
  {
    var start := if st.contentLength.Some? then st.contentLength.value else 0;
    if !(0 <= start <= |s|) {
      Absorb(toInt, st, s);
    } else {
      var end := BodyEnd(s, start);
      var st1 := BodyCollected(toInt, st, s, start, end);
      if end < |s| {
        BodyClosed(toInt, st1, s, end);
        RefinesFrames(toInt, Between(Some(NUL)), s[end + 1..]);
      } else {
        assert Feed(toInt, st1, s[end..]) == Fed(st1, []);
      }
    }
  }

  lemma BodyClosed(toInt: string -> Option<int>, st: ParserState, s: seq<byte>, end: nat)
    requires st.command.Some? && st.headersProcessed && end < |s| && s[end] == NUL
    requires st.contentLength.Some? ==> st.contentLength.value == |st.buf|
    ensures Feed(toInt, st, s[end..])
         == Prepend([MakeFrame(st.command.value, st.headers, st.buf)], Feed(toInt, Between(Some(NUL)), s[end + 1..]))
  {
    assert s[end..][1..] == s[end + 1..];
  }

  lemma SplitSlice(s: seq<byte>, i: nat, j: nat)
    requires i <= j <= |s|
    ensures s[i..j] + s[j..] == s[i..]
  {
  }

  /** Reading up to position `end`, the first NUL that may close the body. */
  lemma BodyCollected(toInt: string -> Option<int>, st: ParserState, s: seq<byte>, start: nat, end: nat)
    returns (st1: ParserState)
    requires st.command.Some? && st.headersProcessed && st.buf == []
    requires st.contentLength.None? ==> start == 0
    requires st.contentLength.Some? ==> start == st.contentLength.value
    requires start <= end <= |s| && NUL !in s[start..end]
    ensures st1 == st.(buf := if st.contentLength.Some? then s[..start] else s[..end], previous := st1.previous)
    ensures Feed(toInt, st, s) == Feed(toInt, st1, s[end..])
  {
    if st.contentLength.None? {
      assert s[start..end] == s[..end];
      assert st.buf + s[..end] == s[..end];
      st1 := st.(buf := s[..end], previous := LastOf(st.previous, s[..end]));
      AbsorbPrefix(toInt, st, s, end, st1);
    } else {
      assert st.buf + s[..start] == s[..start];
      var st0 := st.(buf := s[..start], previous := LastOf(st.previous, s[..start]));
      AbsorbPrefix(toInt, st, s, start, st0);
      Skip(toInt, st0, s[start..end]);
      FeedConcat(toInt, st0, s[start..end], s[end..]);
      SplitSlice(s, start, end);
      st1 := st0.(previous := LastOf(st0.previous, s[start..end]));
      EmptyFrames(Feed(toInt, st1, s[end..]));
    }
  }

  /** For every byte stream, however it is cut into chunks, a new parser emits exactly the frames
      of the whole-stream reading. */
  lemma ParserRefinesReference(toInt: string -> Option<int>, chunks: seq<seq<byte>>)
    ensures FeedChunks(toInt, Between(None), chunks).frames == ReadFrames(toInt, Flatten(chunks))
  {
    ChunkingIsInvisible(toInt, Between(None), chunks);
    RefinesFrames(toInt, Between(None), Flatten(chunks));
  }
}
