/** The incremental `FrameParser`: a state machine over single bytes, and the class that runs it. */
module Parser {
  import opened Bytes
  import opened HeaderCodec
  import opened Frames

  /** The six fields of `FrameParser`. */
  datatype ParserState = ParserState(
    buf: seq<byte>,
    previous: Option<byte>,
    headersProcessed: bool,
    command: Option<Command>,
    headers: Headers,
    contentLength: Option<int>)

  datatype Fed = Fed(state: ParserState, frames: seq<Frame>)

  function LowerChar(c: char): char
  {
    if 'A' <= c <= 'Z' then (c as int + 32) as char else c
  }

  /** ASCII lower-casing; no other character lower-cases to a letter of "content-length". */
  function Lower(s: string): string
  {
    if s == "" then "" else [LowerChar(s[0])] + Lower(s[1..])
  }

  const CONTENT_LENGTH := "content-length"

  /** A parser between two frames. */
  function Between(previous: Option<byte>): ParserState
  {
    ParserState([], previous, false, None, map[], None)
  }

  predicate IsBetween(st: ParserState) { st == Between(st.previous) }

  /** `make_frame_from_parts`. */
  function MakeFrame(c: Command, headers: Headers, body: seq<byte>): Frame
  {
    Frame(c, headers, if HasBody(c) then body else [])
  }

  /** A new header: the first entry of a key wins and may set the content length. */
  function AddHeader(toInt: string -> Option<int>, headers: Headers, length: Option<int>, key: string, value: string)
    : (Headers, Option<int>)
  {
    if key in headers then (headers, length)
    else (headers[key := value],
          if Lower(key) == CONTENT_LENGTH && toInt(value).Some? then toInt(value) else length)
  }

  /** A header line; one that is no header changes nothing. */
  function AddLine(toInt: string -> Option<int>, headers: Headers, length: Option<int>, line: seq<byte>)
    : (Headers, Option<int>)
  {
    match HeaderOf(line)
    case None => (headers, length)
    case Some((k, v)) => AddHeader(toInt, headers, length, k, v)
  }

  function HandleNull(st: ParserState): Fed
  {
    if st.command.None? || !st.headersProcessed then Fed(Between(st.previous), [])
    else if st.contentLength.Some? && st.contentLength.value != |st.buf| then Fed(st.(buf := st.buf + [NUL]), [])
    else Fed(Between(st.previous), [MakeFrame(st.command.value, st.headers, st.buf)])
  }

  /** The collected line, without the carriage return that may end it. */
  function Line(st: ParserState): seq<byte>
  {
    if st.previous == Some(CR) && st.buf != [] then st.buf[..|st.buf| - 1] else st.buf
  }

  function ProcessLine(toInt: string -> Option<int>, st: ParserState, line: seq<byte>): ParserState
  {
    match st.command
    case None =>
      (match Lookup(line)
       case None => Between(st.previous)
       case Some(c) => st.(command := Some(c), buf := [], headersProcessed := line == []))
    case Some(_) =>
      var (h, n) := AddLine(toInt, st.headers, st.contentLength, line);
      st.(buf := [], headersProcessed := line == [], headers := h, contentLength := n)
  }

  lemma ProcessLineIgnoresBuffer(toInt: string -> Option<int>, st: ParserState, line: seq<byte>)
    ensures ProcessLine(toInt, st.(buf := line, headersProcessed := line == []), line) == ProcessLine(toInt, st, line)
  {
  }

  function HandleNewline(toInt: string -> Option<int>, st: ParserState): Fed
  {
    if st.buf == [] && st.command.None? then Fed(st, [Heartbeat])
    else Fed(ProcessLine(toInt, st, Line(st)), [])
  }

  function HandleBodyByte(st: ParserState, b: byte): ParserState
  {
    if st.contentLength.None? || st.contentLength.value != |st.buf| then st.(buf := st.buf + [b]) else st
  }

  /** The effect of one byte. */
  function Step(toInt: string -> Option<int>, st: ParserState, b: byte): Fed
  {
    var r :=
      if b == NUL then HandleNull(st)
      else if st.headersProcessed then Fed(HandleBodyByte(st, b), [])
      else if b == LF then HandleNewline(toInt, st)
      else Fed(st.(buf := st.buf + [b]), []);
    r.(state := r.state.(previous := Some(b)))
  }

  function Feed(toInt: string -> Option<int>, st: ParserState, bs: seq<byte>): Fed
    decreases |bs|
  {
    if bs == [] then Fed(st, [])
    else
      var first := Step(toInt, st, bs[0]);
      var rest := Feed(toInt, first.state, bs[1..]);
      Fed(rest.state, first.frames + rest.frames)
  }

  function FeedChunks(toInt: string -> Option<int>, st: ParserState, chunks: seq<seq<byte>>): Fed
    decreases |chunks|
  {
    if chunks == [] then Fed(st, [])
    else
      var first := Feed(toInt, st, chunks[0]);
      var rest := FeedChunks(toInt, first.state, chunks[1..]);
      Fed(rest.state, first.frames + rest.frames)
  }

  function Flatten(chunks: seq<seq<byte>>): seq<byte>
  {
    if chunks == [] then [] else chunks[0] + Flatten(chunks[1..])
  }

  function Prepend(frames: seq<Frame>, f: Fed): Fed
  {
    Fed(f.state, frames + f.frames)
  }

  /** A byte that completes nothing. */
  lemma FeedSilent(toInt: string -> Option<int>, st: ParserState, bs: seq<byte>, next: ParserState)
    requires bs != [] && Step(toInt, st, bs[0]) == Fed(next, [])
    ensures Feed(toInt, st, bs) == Feed(toInt, next, bs[1..])
  {
    var rest := Feed(toInt, next, bs[1..]);
    assert [] + rest.frames == rest.frames;
  }

  lemma FeedOne(toInt: string -> Option<int>, st: ParserState, bs: seq<byte>, out: seq<Frame>)
    requires bs != []
    ensures Prepend(out, Feed(toInt, st, bs))
         == var s := Step(toInt, st, bs[0]); Prepend(out + s.frames, Feed(toInt, s.state, bs[1..]))
  {
    var s := Step(toInt, st, bs[0]);
    var rest := Feed(toInt, s.state, bs[1..]);
    assert out + (s.frames + rest.frames) == (out + s.frames) + rest.frames;
  }

  lemma {:induction false} FeedConcat(toInt: string -> Option<int>, st: ParserState, a: seq<byte>, b: seq<byte>)
    ensures Feed(toInt, st, a + b)
         == var f := Feed(toInt, st, a); Prepend(f.frames, Feed(toInt, f.state, b))
    decreases |a|
  {
    if a == [] {
      assert a + b == b;
      assert [] + Feed(toInt, st, b).frames == Feed(toInt, st, b).frames;
    } else {
      var first := Step(toInt, st, a[0]);
      assert (a + b)[1..] == a[1..] + b;
      FeedConcat(toInt, first.state, a[1..], b);
      var f := Feed(toInt, first.state, a[1..]);
      var g := Feed(toInt, f.state, b);
      assert first.frames + (f.frames + g.frames) == (first.frames + f.frames) + g.frames;
    }
  }

  /** How the bytes are cut into chunks does not matter. */
  lemma {:induction false} ChunkingIsInvisible(toInt: string -> Option<int>, st: ParserState, chunks: seq<seq<byte>>)
    ensures FeedChunks(toInt, st, chunks) == Feed(toInt, st, Flatten(chunks))
    decreases |chunks|
  {
    if chunks != [] {
      FeedConcat(toInt, st, chunks[0], Flatten(chunks[1..]));
      ChunkingIsInvisible(toInt, Feed(toInt, st, chunks[0]).state, chunks[1..]);
    }
  }

  // ------------------------------------------------------------------------------------------
  // What every byte sequence keeps
  // ------------------------------------------------------------------------------------------

  predicate Consistent(st: ParserState)
  {
    // popping the carriage return never meets an empty buffer
    && (!st.headersProcessed && st.buf != [] ==> st.previous == Some(st.buf[|st.buf| - 1]))
    && (!st.headersProcessed && st.buf == [] ==> st.previous != Some(CR))
    && (!st.headersProcessed ==> NUL !in st.buf && LF !in st.buf)
    && (st.headersProcessed ==> st.command.Some?)
    && (st.command.None? ==> st.headers == map[] && st.contentLength.None?)
    // a body never outgrows its announced length
    && (st.headersProcessed && st.contentLength.Some? && st.contentLength.value >= 0
        ==> |st.buf| <= st.contentLength.value)
    && (st.headersProcessed && st.contentLength.None? ==> NUL !in st.buf)
  }

  lemma EmptyIsNoCommand()
    ensures Lookup([]) == None
    ensures HeaderOf([]) == None
  {
  }

  lemma NewlineKeepsConsistent(toInt: string -> Option<int>, st: ParserState)
    requires Consistent(st) && !st.headersProcessed
    ensures Consistent(HandleNewline(toInt, st).state.(previous := Some(LF)))
  {
    EmptyIsNoCommand();
    var line := Line(st);
    var next := ProcessLine(toInt, st, line);
    assert st.command.None? || next.buf == [];
  }

  lemma StepKeepsConsistent(toInt: string -> Option<int>, st: ParserState, b: byte)
    requires Consistent(st)
    ensures Consistent(Step(toInt, st, b).state)
  {
    if b == LF && !st.headersProcessed {
      NewlineKeepsConsistent(toInt, st);
    } else if b == NUL {
      assert Consistent(HandleNull(st).state.(previous := Some(NUL)));
    } else if st.headersProcessed {
      assert Consistent(HandleBodyByte(st, b).(previous := Some(b)));
    } else {
      assert Consistent(st.(buf := st.buf + [b], previous := Some(b)));
    }
  }

  /** Over every byte sequence: the parser stays consistent. */
  lemma {:induction false} FeedKeepsConsistent(toInt: string -> Option<int>, st: ParserState, bs: seq<byte>)
    requires Consistent(st)
    ensures Consistent(Feed(toInt, st, bs).state)
    decreases |bs|
  {
    if bs != [] {
      StepKeepsConsistent(toInt, st, bs[0]);
      FeedKeepsConsistent(toInt, Step(toInt, st, bs[0]).state, bs[1..]);
    }
  }

  /** One NUL brings the parser back between frames exactly when no body byte is still owed. */
  lemma NullResynchronises(toInt: string -> Option<int>, st: ParserState)
    requires Consistent(st)
    ensures IsBetween(Step(toInt, st, NUL).state)
       <==> !(st.headersProcessed && st.contentLength.Some? && st.contentLength.value != |st.buf|)
  {
  }

  /** `FrameParser`. */
  class FrameParser {
    const toInt: string -> Option<int>
    var currentBuf: seq<byte>
    var previousByte: Option<byte>
    var headersProcessed: bool
    var command: Option<Command>
    var headers: Headers
    var contentLength: Option<int>

    ghost function State(): ParserState
      reads this
    {
      ParserState(currentBuf, previousByte, headersProcessed, command, headers, contentLength)
    }

    constructor (toInt: string -> Option<int>)
      ensures this.toInt == toInt && State() == Between(None)
    {
      this.toInt := toInt;
      currentBuf, previousByte, headersProcessed := [], None, false;
      command, headers, contentLength := None, map[], None;
    }

    method Reset()
      modifies this
      ensures State() == Between(old(previousByte))
    {
      currentBuf, headersProcessed, command, headers, contentLength := [], false, None, map[], None;
    }

    method HandleNullByte() returns (frames: seq<Frame>)
      modifies this
      ensures Fed(State(), frames) == HandleNull(old(State()))
    {
      frames := [];
      if command.None? || !headersProcessed {
        Reset();
        return;
      }
      if contentLength.Some? && contentLength.value != |currentBuf| {
        currentBuf := currentBuf + [NUL];
        return;
      }
      frames := [MakeFrame(command.value, headers, currentBuf)];
      Reset();
    }

    method HandleNewlineByte() returns (frames: seq<Frame>)
      requires !headersProcessed
      requires previousByte == Some(CR) ==> currentBuf != []
      modifies this
      ensures Fed(State(), frames) == HandleNewline(toInt, old(State()))
    {
      frames := [];
      if currentBuf == [] && command.None? {
        frames := [Heartbeat];
        return;
      }
      if previousByte == Some(CR) {
        currentBuf := currentBuf[..|currentBuf| - 1];
      }
      headersProcessed := currentBuf == [];
      assert State() == old(State()).(buf := Line(old(State())), headersProcessed := Line(old(State())) == []);
      ProcessLineIgnoresBuffer(toInt, old(State()), currentBuf);
      if command.Some? {
        ProcessHeader();
      } else {
        ProcessCommand();
      }
    }

    method ProcessCommand()
      requires command.None? && headersProcessed == (currentBuf == [])
      modifies this
      ensures State() == ProcessLine(toInt, old(State()), old(currentBuf))
    {
      var found := Lookup(currentBuf);
      if found.None? {
        Reset();
      } else {
        command := found;
        currentBuf := [];
      }
    }

    method ProcessHeader()
      requires command.Some? && headersProcessed == (currentBuf == [])
      modifies this
      ensures State() == ProcessLine(toInt, old(State()), old(currentBuf))
    {
      var header := ParseHeader(currentBuf);
      if header.None? {
        currentBuf := [];
        return;
      }
      var (key, value) := header.value;
      if key !in headers {
        headers := headers[key := value];
        if Lower(key) == CONTENT_LENGTH {
          var length := toInt(value);
          if length.Some? {
            contentLength := length;
          }
        }
      }
      currentBuf := [];
    }

    method HandleBody(b: byte)
      modifies this
      ensures State() == HandleBodyByte(old(State()), b)
    {
      if contentLength.None? || contentLength.value != |currentBuf| {
        currentBuf := currentBuf + [b];
      }
    }

    /** One round of the loop of `parse_frames_from_chunk`. */
    method ParseByte(b: byte) returns (frames: seq<Frame>)
      requires Consistent(State())
      modifies this
      ensures Consistent(State())
      ensures Fed(State(), frames) == Step(toInt, old(State()), b)
    {
      StepKeepsConsistent(toInt, State(), b);
      frames := [];
      if b == NUL {
        frames := HandleNullByte();
      } else if headersProcessed {
        HandleBody(b);
      } else if b == LF {
        frames := HandleNewlineByte();
      } else {
        currentBuf := currentBuf + [b];
      }
      previousByte := Some(b);
    }

    /** `parse_frames_from_chunk`: the class computes exactly `Feed` and stays consistent. */
    method ParseFramesFromChunk(chunk: seq<byte>) returns (frames: seq<Frame>)
      requires Consistent(State())
      modifies this
      ensures Consistent(State())
      ensures Fed(State(), frames) == Feed(toInt, old(State()), chunk)
    {
      frames := [];
      assert chunk[0..] == chunk;
      assert frames + Feed(toInt, State(), chunk).frames == Feed(toInt, State(), chunk).frames;
      for i := 0 to |chunk|
        invariant Consistent(State())
        invariant Feed(toInt, old(State()), chunk)
               == Prepend(frames, Feed(toInt, State(), chunk[i..]))
      {
        FeedOne(toInt, State(), chunk[i..], frames);
        assert chunk[i..][1..] == chunk[i + 1..];
        var more := ParseByte(chunk[i]);
        frames := frames + more;
      }
    }
  }
}
