/** Newline framing of internal/acp/connection.go: `readFrame` over a buffered reader that hands
    the byte stream out in arbitrary fragments, and the frames that `send` writes. */
module Framing {
  import opened Sequences
  import opened Wrappers

  newtype byte = x: int | 0 <= x < 256

  const LF: byte := 10
  const CR: byte := 13

  /** How one slice of the buffered reader ended. */
  datatype SliceEnd = Delimiter | BufferFull | Eof | Failed

  datatype FrameResult = Frame(payload: seq<byte>) | TooBig | EndOfStream | Broken

  /** The number of bytes up to and including the first newline, or all of them. */
  function RawLength(stream: seq<byte>): (n: nat)
    ensures n <= |stream|
    ensures forall k :: 0 <= k < n - 1 ==> stream[k] != LF
    ensures n < |stream| ==> n > 0 && stream[n - 1] == LF
  {
    if stream == [] then 0 else if stream[0] == LF then 1 else 1 + RawLength(stream[1..])
  }

  /** The part of a peer's byte stream that is still to be read. A stream ends either with the
      usual end of file or with a read error. */
  class Reader {
    var rest: seq<byte>
    const broken: bool

    constructor (stream: seq<byte>, broken: bool)
      ensures rest == stream && this.broken == broken
    {
      this.rest := stream;
      this.broken := broken;
    }

    /** ReadSlice: up to and including the next newline, unless the buffer fills up or the stream
        ends first. Where the buffer fills up is not determined. */
    method ReadSlice() returns (fragment: seq<byte>, end: SliceEnd)
      modifies this
      ensures old(rest) == fragment + rest
      ensures match end
              case Delimiter => fragment != [] && fragment[|fragment| - 1] == LF && LF !in fragment[..|fragment| - 1]
              case BufferFull => fragment != [] && LF !in fragment
              case Eof => LF !in fragment && rest == [] && !broken
              case Failed => LF !in fragment && rest == [] && broken
    {
      var n := RawLength(rest);
      var k: nat :| 0 < k;
      if k < n {
        assert rest[..k] == rest[..n][..k];
        fragment, end := rest[..k], BufferFull;
      } else {
        fragment := rest[..n];
        end := if n > 0 && rest[n - 1] == LF then Delimiter else if broken then Failed else Eof;
      }
      assert rest == fragment + rest[|fragment|..];
      rest := rest[|fragment|..];
    }
  }

  function DropSuffix(s: seq<byte>, b: byte): seq<byte> {
    if s != [] && s[|s| - 1] == b then s[..|s| - 1] else s
  }

  /** Raw bytes without their newline and without one carriage return before it. */
  function Payload(raw: seq<byte>): seq<byte> {
    DropSuffix(DropSuffix(raw, LF), CR)
  }

  /** What reading one frame yields, and what it leaves unread. */
  function NextFrame(stream: seq<byte>, limit: nat, broken: bool): (FrameResult, seq<byte>) {
    var n := RawLength(stream);
    var terminated := n > 0 && stream[n - 1] == LF;
    if !terminated && broken then (Broken, [])
    else if n > limit then (TooBig, stream[n..])
    else if !terminated && Payload(stream[..n]) == [] then (EndOfStream, [])
    else (Frame(Payload(stream[..n])), stream[n..])
  }

  /** The frame buffer after `consumed` was read: all of it, or one byte more than the limit. */
  predicate Held(frame: seq<byte>, overflow: bool, consumed: seq<byte>, limit: nat) {
    && overflow == (|consumed| > limit)
    && frame == if overflow then consumed[..limit + 1] else consumed
  }

  lemma HeldStep(frame: seq<byte>, overflow: bool, consumed: seq<byte>, fragment: seq<byte>, limit: nat)
    requires Held(frame, overflow, consumed, limit)
    ensures var all := consumed + fragment;
            if overflow then Held(frame, true, all, limit)
            else if |fragment| > limit + 1 - |frame| then Held(frame + fragment[..limit + 1 - |frame|], true, all, limit)
            else Held(frame + fragment, |frame + fragment| > limit, all, limit)
  {
    var all := consumed + fragment;
    if overflow {
      assert all[..limit + 1] == consumed[..limit + 1];
    } else if |all| > limit {
      assert all[..limit + 1] == frame + fragment[..limit + 1 - |frame|];
      assert |fragment| == limit + 1 - |frame| ==> fragment[..|fragment|] == fragment;
    }
  }

  /** The fragments gathered up to the first delimiter, or to the end, are the raw frame. */
  lemma SliceIsRaw(stream: seq<byte>, consumed: seq<byte>, rest: seq<byte>, delimited: bool)
    requires stream == consumed + rest
    requires if delimited then consumed != [] && consumed[|consumed| - 1] == LF && LF !in consumed[..|consumed| - 1]
             else LF !in consumed && rest == []
    ensures RawLength(stream) == |consumed| && stream[..|consumed|] == consumed && stream[|consumed|..] == rest
    ensures delimited == (|consumed| > 0 && stream[|consumed| - 1] == LF)
  {
    assert stream[..|consumed|] == consumed;
    if delimited {
      assert stream[|consumed| - 1] == LF;
      assert forall k :: 0 <= k < |consumed| - 1 ==> stream[k] == consumed[..|consumed| - 1][k];
    } else {
      assert stream == consumed;
    }
  }

  lemma FrameIs(stream: seq<byte>, consumed: seq<byte>, rest: seq<byte>, delimited: bool,
                frame: seq<byte>, overflow: bool, limit: nat, broken: bool)
    requires stream == consumed + rest && Held(frame, overflow, consumed, limit)
    requires if delimited then consumed != [] && consumed[|consumed| - 1] == LF && LF !in consumed[..|consumed| - 1]
             else LF !in consumed && rest == []
    ensures NextFrame(stream, limit, broken) ==
            if !delimited && broken then (Broken, [])
            else if overflow then (TooBig, rest)
            else if !delimited && Payload(frame) == [] then (EndOfStream, [])
            else (Frame(Payload(frame)), rest)
  {
    SliceIsRaw(stream, consumed, rest, delimited);
  }

  /** readFrame. `peak` is the largest the frame buffer ever was. */
  method ReadFrame(reader: Reader, limit: nat) returns (result: FrameResult, ghost peak: nat)
    modifies reader
    ensures (result, reader.rest) == NextFrame(old(reader.rest), limit, reader.broken)
    ensures peak <= limit + 1
  {
    ghost var stream := reader.rest;
    ghost var consumed: seq<byte> := [];
    var frame: seq<byte> := [];
    var overflow := false;
    peak := 0;
    while true
      invariant stream == consumed + reader.rest
      invariant LF !in consumed
      invariant Held(frame, overflow, consumed, limit)
      invariant |frame| <= peak <= limit + 1
      decreases |reader.rest|
    {
      var fragment, end := reader.ReadSlice();
      HeldStep(frame, overflow, consumed, fragment, limit);
      if !overflow {
        var remaining := limit + 1 - |frame|;
        if remaining > 0 {
          if |fragment| > remaining {
            frame := frame + fragment[..remaining];
          } else {
            frame := frame + fragment;
          }
        }
        if |frame| > limit {
          overflow := true;
        }
      }
      peak := if |frame| > peak then |frame| else peak;
      consumed := consumed + fragment;
      if end == BufferFull {
        continue;
      }
      FrameIs(stream, consumed, reader.rest, end == Delimiter, frame, overflow, limit, reader.broken);
      if end == Failed {
        return Broken, peak;
      }
      if overflow {
        return TooBig, peak;
      }
      frame := DropSuffix(frame, LF);
      frame := DropSuffix(frame, CR);
      if end == Eof && frame == [] {
        return EndOfStream, peak;
      }
      return Frame(frame), peak;
    }
  }

  /** The results of reading until the stream ends. */
  function AllFrames(stream: seq<byte>, limit: nat, broken: bool): seq<FrameResult>
    decreases |stream|, stream != []
  {
    var (result, rest) := NextFrame(stream, limit, broken);
    if result in {EndOfStream, Broken} then [result]
    else if stream == [] then []
    else [result] + AllFrames(rest, limit, broken)
  }

  // ----- the independent description: cut at newlines, then judge each line -----

  /** A line that was terminated by a newline; the newline counts against the limit. */
  function Judge(line: seq<byte>, limit: nat): FrameResult {
    if |line| + 1 > limit then TooBig else Frame(DropSuffix(line, CR))
  }

  function JudgeAll(lines: seq<seq<byte>>, limit: nat): seq<FrameResult> {
    if lines == [] then [] else [Judge(lines[0], limit)] + JudgeAll(lines[1..], limit)
  }

  /** The unterminated rest at the end of the stream. */
  function JudgeTail(tail: seq<byte>, limit: nat, broken: bool): seq<FrameResult> {
    if broken then [Broken]
    else if |tail| > limit then [TooBig, EndOfStream]
    else if DropSuffix(tail, CR) == [] then [EndOfStream]
    else [Frame(DropSuffix(tail, CR)), EndOfStream]
  }

  function FramesOfLines(lines: seq<seq<byte>>, limit: nat, broken: bool): seq<FrameResult>
    requires |lines| > 0
  {
    JudgeAll(lines[..|lines| - 1], limit) + JudgeTail(lines[|lines| - 1], limit, broken)
  }

  lemma FirstFrame(stream: seq<byte>, limit: nat, broken: bool)
    requires var n := RawLength(stream); n > 0 && stream[n - 1] == LF
    ensures var n := RawLength(stream);
            AllFrames(stream, limit, broken) == [Judge(stream[..n - 1], limit)] + AllFrames(stream[n..], limit, broken)
  {
    var n := RawLength(stream);
    assert DropSuffix(stream[..n], LF) == stream[..n - 1];
  }

  lemma FirstLine(line: seq<byte>, lines: seq<seq<byte>>, limit: nat, broken: bool)
    requires |lines| > 0
    ensures FramesOfLines([line] + lines, limit, broken) == [Judge(line, limit)] + FramesOfLines(lines, limit, broken)
  {
    var all := [line] + lines;
    assert all[..|all| - 1] == [line] + lines[..|lines| - 1];
    assert ([line] + lines[..|lines| - 1])[1..] == lines[..|lines| - 1];
  }

  lemma LastFrames(tail: seq<byte>, limit: nat, broken: bool)
    requires LF !in tail
    ensures AllFrames(tail, limit, broken) == JudgeTail(tail, limit, broken)
  {
    var n := RawLength(tail);
    assert n == |tail| && tail[..n] == tail && tail[n..] == [];
    assert DropSuffix(tail, LF) == tail;
    assert !broken ==> AllFrames([], limit, broken) == [EndOfStream];
  }

  /** Repeated reading yields exactly the newline-separated lines: an oversized line is reported
      once and the line after it is in sync. */
  lemma {:induction false} FramesAreLines(stream: seq<byte>, limit: nat, broken: bool)
    ensures AllFrames(stream, limit, broken) == FramesOfLines(Split(stream, LF), limit, broken)
    decreases |stream|
  {
    var n := RawLength(stream);
    if n > 0 && stream[n - 1] == LF {
      var line, rest := stream[..n - 1], stream[n..];
      assert LF !in line;
      assert stream == line + [LF] + rest;
      SplitPrefix(line, rest, LF);
      FramesAreLines(rest, limit, broken);
      FirstFrame(stream, limit, broken);
      FirstLine(line, Split(rest, LF), limit, broken);
    } else {
      assert LF !in stream;
      SplitFree(stream, LF);
      assert stream[..n] == stream;
      LastFrames(stream, limit, broken);
    }
  }

  lemma FrameConsumes(stream: seq<byte>, limit: nat, broken: bool)
    requires NextFrame(stream, limit, broken).0 !in {EndOfStream, Broken}
    ensures stream != [] && |NextFrame(stream, limit, broken).1| < |stream|
  {
  }

  /** The serving loop: reads frames until the stream ends. */
  method ReadAll(reader: Reader, limit: nat) returns (results: seq<FrameResult>)
    modifies reader
    ensures results == FramesOfLines(Split(old(reader.rest), LF), limit, reader.broken)
  {
    results := [];
    ghost var stream := reader.rest;
    while true
      invariant results + AllFrames(reader.rest, limit, reader.broken) == AllFrames(stream, limit, reader.broken)
      decreases |reader.rest|
    {
      ghost var before := reader.rest;
      var result, peak := ReadFrame(reader, limit);
      results := results + [result];
      if result in {EndOfStream, Broken} {
        FramesAreLines(stream, limit, reader.broken);
        return;
      }
      FrameConsumes(before, limit, reader.broken);
    }
  }

  // ----- writing -----

  /** The bytes `send` queues for a payload; None when it refuses the payload. */
  function Encode(payload: seq<byte>, limit: nat): Option<seq<byte>> {
    if |payload| > limit then None else Some(payload + [LF])
  }

  /** Payloads that survive the wire. */
  predicate Clean(payload: seq<byte>, limit: nat) {
    |payload| < limit && LF !in payload && (payload != [] ==> payload[|payload| - 1] != CR)
  }

  /** A written frame reads back unchanged exactly when its payload is clean. */
  lemma SendThenRead(payload: seq<byte>, rest: seq<byte>, limit: nat, broken: bool)
    requires Encode(payload, limit).Some?
    ensures NextFrame(Encode(payload, limit).value + rest, limit, broken) == (Frame(payload), rest)
            <==> Clean(payload, limit)
  {
    var stream := payload + [LF] + rest;
    var n := RawLength(stream);
    assert stream[|payload|] == LF;
    if LF !in payload {
      assert n == |payload| + 1;
      assert stream[..n] == payload + [LF];
      assert DropSuffix(stream[..n], LF) == payload;
      assert stream[n..] == rest;
    } else {
      var k :| 0 <= k < |payload| && payload[k] == LF;
      assert stream[k] == LF;
      assert n <= |payload|;
    }
  }

  /** `send` accepts a payload of exactly the limit, but the reader counts its newline too. */
  lemma FullSizePayloadIsLost(payload: seq<byte>, limit: nat)
    requires |payload| == limit && LF !in payload
    ensures Encode(payload, limit) == Some(payload + [LF])
    ensures NextFrame(payload + [LF], limit, false) == (TooBig, [])
  {
    var stream := payload + [LF];
    assert stream[|payload|] == LF;
    assert forall k :: 0 <= k < |payload| ==> stream[k] == payload[k];
    assert RawLength(stream) == |stream| && stream[|stream|..] == [];
  }

  function Wire(payloads: seq<seq<byte>>): seq<byte> {
    if payloads == [] then [] else payloads[0] + [LF] + Wire(payloads[1..])
  }

  /** A whole conversation of clean payloads comes out as it went in. */
  lemma {:induction false} ConversationRoundTrip(payloads: seq<seq<byte>>, limit: nat)
    requires forall k :: 0 <= k < |payloads| ==> Clean(payloads[k], limit)
    ensures AllFrames(Wire(payloads), limit, false) ==
            seq(|payloads|, k requires 0 <= k < |payloads| => Frame(payloads[k])) + [EndOfStream]
  {
    hide RawLength, Payload, NextFrame;
    if payloads == [] {
      LastFrames([], limit, false);
    } else {
      var rest := Wire(payloads[1..]);
      SendThenRead(payloads[0], rest, limit, false);
      ConversationRoundTrip(payloads[1..], limit);
      assert payloads[0] + [LF] + rest != [];
    }
  }
}
