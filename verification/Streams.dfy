/** Whole streams: concatenated dumps, cut into chunks anywhere. */
module Streams {
  import opened Bytes
  import opened Frames
  import opened Parser
  import opened RoundTrip
  import opened Connect
  import opened Accounting

  function DumpAll(frames: seq<Frame>): seq<byte>
  {
    if frames == [] then [] else DumpFrame(frames[0]) + DumpAll(frames[1..])
  }

  /** What a caller must check for a frame to survive the wire. */
  ghost predicate Sendable(toInt: ToInt, f: Frame)
  {
    if f.Frame? && f.command == CONNECT then ConnectSafe(toInt, f) else Transmissible(toInt, f)
  }

  /** From between frames, the dump of one frame reads back as that frame if and only if it is sendable. */
  lemma OneFed(toInt: ToInt, st: ParserState, f: Frame)
    requires IsBetween(st) && st.previous != Some(CR) && WellTyped(f)
    ensures Sendable(toInt, f) ==> Feed(toInt, st, DumpFrame(f)) == Fed(AfterDump(f), [f])
    ensures Feed(toInt, st, DumpFrame(f)).frames == [f] ==> Sendable(toInt, f)
  {
    if f.Frame? && f.command == CONNECT {
      ConnectRoundTrip(toInt, st, f);
    } else if f.Frame? {
      FrameRoundTrip(toInt, st, f);
    } else {
      assert [LF][1..] == [];
    }
  }

  function AfterDump(f: Frame): ParserState
  {
    Between(Some(if f.Frame? then NUL else LF))
  }

  lemma {:induction false} DumpsFed(toInt: ToInt, st: ParserState, frames: seq<Frame>)
    requires IsBetween(st) && st.previous != Some(CR)
    requires forall i :: 0 <= i < |frames| ==> WellTyped(frames[i]) && Sendable(toInt, frames[i])
    ensures Feed(toInt, st, DumpAll(frames)).frames == frames
    ensures IsBetween(Feed(toInt, st, DumpAll(frames)).state)
    decreases |frames|
  {
    if frames != [] {
      var f := frames[0];
      OneFed(toInt, st, f);
      DumpsFed(toInt, AfterDump(f), frames[1..]);
      FeedConcat(toInt, st, DumpFrame(f), DumpAll(frames[1..]));
    }
  }

  // ------------------------------------------------------------------------------------------
  // If the frames come back, each has come back from its own dump
  // ------------------------------------------------------------------------------------------

  lemma {:induction false} DumpAllBytes(frames: seq<Frame>)
    ensures |DumpAll(frames)| == DumpBytes(frames)
  {
    if frames != [] { DumpAllBytes(frames[1..]); }
  }

  lemma {:induction false} DumpsAreNotEmpty(frames: seq<Frame>)
    requires DumpBytes(frames) == 0
    ensures frames == []
  {
  }

  lemma LastByte(toInt: ToInt, st: ParserState, bs: seq<byte>, b: byte)
    ensures Feed(toInt, st, bs + [b]) == (var first := Feed(toInt, st, bs);
                                          var last := Step(toInt, first.state, b);
                                          Fed(last.state, first.frames + last.frames))
  {
    FeedConcat(toInt, st, bs, [b]);
    assert [b][1..] == [];
  }

  /** The dump of a frame without its final NUL. */
  function Head(f: Frame): seq<byte>
    requires f.Frame?
  {
    NameBytes(f.command) + [LF] + DumpHeaders(f.command, SortedItems(f.headers)) + [LF]
    + if HasBody(f.command) then f.body else []
  }

  /** A dump that gives no frame and is all paid for leaves a body that outgrows the frame. */
  lemma NothingReturned(toInt: ToInt, st: ParserState, f: Frame)
    requires IsBetween(st) && st.previous != Some(CR)
    requires Feed(toInt, st, DumpFrame(f)).frames == [] && Paid(Feed(toInt, st, DumpFrame(f)).state) == Cost(f)
    ensures var st' := Feed(toInt, st, DumpFrame(f)).state;
            st'.headersProcessed && st'.command.Some? && HasBody(st'.command.value)
  {
    if f.Frame? {
      var before := Feed(toInt, st, Head(f));
      assert DumpFrame(f) == Head(f) + [NUL];
      LastByte(toInt, st, Head(f), NUL);
      FeedPays(toInt, st, Head(f));
      FeedKeepsConsistent(toInt, st, Head(f));
    } else {
      OneFed(toInt, st, f);
    }
  }

  /** The first frame comes back from its own dump, and nothing else does. */
  lemma FirstReturned(toInt: ToInt, st: ParserState, f: Frame, rest: seq<Frame>)
    requires IsBetween(st) && st.previous != Some(CR) && WellTyped(f)
    requires Feed(toInt, st, DumpFrame(f) + DumpAll(rest)).frames == [f] + rest
    ensures Feed(toInt, st, DumpFrame(f)).frames == [f]
    ensures Feed(toInt, Feed(toInt, st, DumpFrame(f)).state, DumpAll(rest)).frames == rest
  {
    var first := Feed(toInt, st, DumpFrame(f));
    var second := Feed(toInt, first.state, DumpAll(rest));
    FeedConcat(toInt, st, DumpFrame(f), DumpAll(rest));
    FeedPays(toInt, st, DumpFrame(f));
    FeedKeepsConsistent(toInt, st, DumpFrame(f));
    FeedPays(toInt, first.state, DumpAll(rest));
    DumpAllBytes(rest);
    TotalConcat(Cost, first.frames, second.frames);
    TotalConcat(Cost, [f], rest);
    TotalOne(Cost, f);
    assert DumpBytes(first.frames) + Paid(first.state) == Cost(f);
    if first.frames == [] {
      NothingReturned(toInt, st, f);
      BodyCosts(toInt, first.state, DumpAll(rest));
      assert false;
    }
    assert first.frames[0] == f && first.frames == [f] + first.frames[1..];
    TotalConcat(Cost, [f], first.frames[1..]);
    DumpsAreNotEmpty(first.frames[1..]);
  }

  lemma {:induction false} ReturnedIsSendable(toInt: ToInt, st: ParserState, frames: seq<Frame>)
    requires IsBetween(st) && st.previous != Some(CR) && forall i :: 0 <= i < |frames| ==> WellTyped(frames[i])
    requires Feed(toInt, st, DumpAll(frames)).frames == frames
    ensures forall i :: 0 <= i < |frames| ==> Sendable(toInt, frames[i])
    decreases |frames|
  {
    if frames != [] {
      var f, rest := frames[0], frames[1..];
      assert frames == [f] + rest;
      FirstReturned(toInt, st, f, rest);
      OneFed(toInt, st, f);
      ReturnedIsSendable(toInt, AfterDump(f), rest);
    }
  }

  /** For any stream of heartbeats and frames, CONNECT included, cut into chunks anywhere: one parser
      reads it back frame for frame if and only if every frame is sendable, and then it ends between
      frames. */
  lemma StreamRoundTrip(toInt: ToInt, frames: seq<Frame>, chunks: seq<seq<byte>>)
    requires forall i :: 0 <= i < |frames| ==> WellTyped(frames[i])
    requires Flatten(chunks) == DumpAll(frames)
    ensures FeedChunks(toInt, Between(None), chunks).frames == frames
       <==> forall i :: 0 <= i < |frames| ==> Sendable(toInt, frames[i])
    ensures FeedChunks(toInt, Between(None), chunks).frames == frames ==>
              IsBetween(FeedChunks(toInt, Between(None), chunks).state)
  {
    ChunkingIsInvisible(toInt, Between(None), chunks);
    if FeedChunks(toInt, Between(None), chunks).frames == frames {
      ReturnedIsSendable(toInt, Between(None), frames);
    }
    if forall i :: 0 <= i < |frames| ==> Sendable(toInt, frames[i]) {
      DumpsFed(toInt, Between(None), frames);
    }
  }
}
