/**
  The bounded JSONL framer of the stdio adapter: an incremental reader whose
  frames depend only on the bytes of the stream, never on how reads cut it.
 */
module JsonlReader {
  import opened Wrappers
  import opened Text

  const MAX_INPUT_FRAME_BYTES := 16 * 1024
  const READ_CHUNK_BYTES := 1024
  const NEWLINE: byte := 10
  const CARRIAGE_RETURN: byte := 13

  type Bytes = seq<byte>

  datatype Frame = Line(bytes: Bytes) | EndOfInput | TooLarge

  /** The index of the first newline, or the length if there is none. */
  function LineEnd(s: Bytes): (n: nat)
    ensures n <= |s|
    ensures n < |s| ==> s[n] == NEWLINE
    ensures forall i :: 0 <= i < n ==> s[i] != NEWLINE
  {
    if s == [] || s[0] == NEWLINE then 0 else 1 + LineEnd(s[1..])
  }

  function TrimReturn(s: Bytes): (r: Bytes) {
    if s != [] && s[|s| - 1] == CARRIAGE_RETURN then s[..|s| - 1] else s
  }

  /** The next frame of a byte stream, and the bytes after it. */
  function FrameOf(stream: Bytes): (r: (Frame, Bytes))
    ensures |r.1| <= |stream|
    ensures r.0.Line? ==> |r.1| < |stream|
  {
    var n := LineEnd(stream);
    if n > MAX_INPUT_FRAME_BYTES then (TooLarge, stream)
    else if n < |stream| then (Line(TrimReturn(stream[..n])), stream[n + 1..])
    else if stream == [] then (EndOfInput, [])
    else (Line(TrimReturn(stream)), [])
  }

  /** Every frame of a byte stream, up to the end of input or the first oversized line. */
  function AllFrames(stream: Bytes): (frames: seq<Frame>)
    decreases |stream|
  {
    var (frame, rest) := FrameOf(stream);
    [frame] + if frame.Line? then AllFrames(rest) else []
  }

  // ---------------------------------------------------- frames are segments

  /** The segments between newlines; the last one is what follows the last newline. */
  function Split(stream: Bytes): (segments: seq<Bytes>)
    ensures segments != []
    decreases |stream|
  {
    var n := LineEnd(stream);
    if n == |stream| then [stream] else [stream[..n]] + Split(stream[n + 1..])
  }

  function Join(segments: seq<Bytes>): (stream: Bytes)
    requires segments != []
  {
    if |segments| == 1 then segments[0] else segments[0] + [NEWLINE] + Join(segments[1..])
  }

  predicate OneLine(segment: Bytes) {
    NEWLINE !in segment
  }

  function Framed(segments: seq<Bytes>): (frames: seq<Frame>)
    requires segments != []
  {
    if |segments[0]| > MAX_INPUT_FRAME_BYTES then [TooLarge]
    else if |segments| > 1 then [Line(TrimReturn(segments[0]))] + Framed(segments[1..])
    else if segments[0] == [] then [EndOfInput]
    else [Line(TrimReturn(segments[0])), EndOfInput]
  }

  lemma {:induction false} SplitJoins(stream: Bytes)
    ensures Join(Split(stream)) == stream
    ensures forall segment :: segment in Split(stream) ==> OneLine(segment)
    decreases |stream|
  {
    var n := LineEnd(stream);
    if n < |stream| {
      SplitJoins(stream[n + 1..]);
      assert Split(stream)[1..] == Split(stream[n + 1..]);
      assert stream == stream[..n] + [NEWLINE] + stream[n + 1..];
    }
  }

  lemma LineEndAfter(segment: Bytes, rest: Bytes)
    requires OneLine(segment)
    ensures LineEnd(segment + [NEWLINE] + rest) == |segment|
    ensures LineEnd(segment) == |segment|
  {
    var whole := segment + [NEWLINE] + rest;
    assert whole[|segment|] == NEWLINE;
    assert forall i :: 0 <= i < |segment| ==> whole[i] == segment[i] && segment[i] in segment;
  }

  /** Splitting is the only way to cut a stream into newline-free segments. */
  lemma {:induction false} SplitIsUnique(segments: seq<Bytes>)
    requires segments != [] && forall segment :: segment in segments ==> OneLine(segment)
    ensures Split(Join(segments)) == segments
  {
    if |segments| == 1 {
      LineEndAfter(segments[0], []);
    } else {
      var tail := Join(segments[1..]);
      LineEndAfter(segments[0], tail);
      assert Join(segments)[..|segments[0]|] == segments[0];
      assert Join(segments)[|segments[0]| + 1..] == tail;
      SplitIsUnique(segments[1..]);
    }
  }

  /**
    The frames of a stream are its newline-separated segments, each without one trailing
    carriage return, plus a nonempty unterminated tail; they stop at the first oversized segment.
   */
  lemma {:induction false} FramesAreSegments(stream: Bytes)
    ensures AllFrames(stream) == Framed(Split(stream))
    decreases |stream|
  {
    var n := LineEnd(stream);
    if n <= MAX_INPUT_FRAME_BYTES {
      if n < |stream| {
        FramesAreSegments(stream[n + 1..]);
        assert Split(stream)[1..] == Split(stream[n + 1..]);
      } else if stream != [] {
        assert AllFrames([]) == [EndOfInput];
        assert AllFrames(stream) == [Line(TrimReturn(stream))] + AllFrames([]);
      }
    }
  }

  /** One trailing carriage return is taken off, and nothing else. */
  lemma TrimIsExact(s: Bytes)
    ensures s != [] && s[|s| - 1] == 13 ==> TrimReturn(s) + [13] == s
    ensures s == [] || s[|s| - 1] != 13 ==> TrimReturn(s) == s
  {
  }

  /**
    The frames, one by one, when the first segment over 16384 bytes is at position `k`, or when there
    is none: every segment before it gives a line, but not an empty one at the end of the stream.
   */
  lemma {:induction false} FramedByIndex(segments: seq<Bytes>, k: nat)
    requires segments != [] && k <= |segments|
    requires forall i :: 0 <= i < k ==> |segments[i]| <= 16384
    requires k < |segments| ==> |segments[k]| > 16384
    ensures var frames := Framed(segments);
      if k < |segments| then
        && |frames| == k + 1 && frames[k] == TooLarge
        && forall i :: 0 <= i < k ==> frames[i] == Line(TrimReturn(segments[i]))
      else
        var n := if segments[|segments| - 1] == [] then |segments| - 1 else |segments|;
        && |frames| == n + 1 && frames[n] == EndOfInput
        && forall i :: 0 <= i < n ==> frames[i] == Line(TrimReturn(segments[i]))
  {
    if k > 0 && |segments| > 1 {
      FramedByIndex(segments[1..], k - 1);
    }
  }

  /** So the frames of a stream are these of the segments between its newlines. */
  lemma FramesByIndex(stream: Bytes, k: nat)
    requires k <= |Split(stream)|
    requires forall i :: 0 <= i < k ==> |Split(stream)[i]| <= 16384
    requires k < |Split(stream)| ==> |Split(stream)[k]| > 16384
    ensures var segments, frames := Split(stream), AllFrames(stream);
      if k < |segments| then
        && |frames| == k + 1 && frames[k] == TooLarge
        && forall i :: 0 <= i < k ==> frames[i] == Line(TrimReturn(segments[i]))
      else
        var n := if segments[|segments| - 1] == [] then |segments| - 1 else |segments|;
        && |frames| == n + 1 && frames[n] == EndOfInput
        && forall i :: 0 <= i < n ==> frames[i] == Line(TrimReturn(segments[i]))
  {
    FramesAreSegments(stream);
    FramedByIndex(Split(stream), k);
  }

  // ------------------------------------------------------------ the program

  /** An asynchronous byte source: a read returns some nonempty prefix of what is to come. */
  class Source {
    var pending: Bytes

    constructor (bytes: Bytes)
      ensures pending == bytes
    {
      pending := bytes;
    }

    method Read(capacity: nat) returns (chunk: Bytes)
      requires capacity > 0
      modifies this
      ensures |chunk| <= capacity && chunk + pending == old(pending)
      ensures chunk == [] <==> old(pending) == []
    {
      if pending == [] {
        return [];
      }
      var count :| 1 <= count <= capacity && count <= |pending|;
      chunk := pending[..count];
      pending := pending[count..];
    }
  }

  class BoundedJsonlReader {
    const reader: Source
    var buffered: Bytes

    ghost predicate Valid()
      reads this
    {
      |buffered| <= MAX_INPUT_FRAME_BYTES + 1
    }

    /** Every byte not yet delivered in a frame, wherever it is held. */
    ghost function Remaining(): (bytes: Bytes)
      reads this, reader
    {
      buffered + reader.pending
    }

    constructor (reader: Source)
      ensures Valid() && this.reader == reader && Remaining() == reader.pending
    {
      this.reader := reader;
      buffered := [];
    }

    method Position() returns (newline: Option<nat>)
      ensures newline == if LineEnd(buffered) < |buffered| then Some(LineEnd(buffered)) else None
    {
      for i := 0 to |buffered|
        invariant forall j :: 0 <= j < i ==> buffered[j] != NEWLINE
      {
        if buffered[i] == NEWLINE {
          return Some(i);
        }
      }
      return None;
    }

    /** The line before the first newline is taken out of the buffer. */
    method TakeLine(newline: nat) returns (r: Frame)
      requires Valid() && LineEnd(buffered) == newline < |buffered| && newline <= MAX_INPUT_FRAME_BYTES
      modifies this
      ensures Valid() && (r, Remaining()) == FrameOf(old(Remaining()))
    {
      BufferedLineEnd(buffered, reader.pending);
      TakeBuffered(buffered, reader.pending);
      var frame := buffered[..newline];
      buffered := buffered[newline + 1..];
      if frame != [] && frame[|frame| - 1] == CARRIAGE_RETURN {
        frame := frame[..|frame| - 1];
      }
      return Line(frame);
    }

    /** The end of the stream: what is buffered is the last, unterminated line. */
    method TakeTail() returns (r: Frame)
      requires LineEnd(buffered) == |buffered| <= MAX_INPUT_FRAME_BYTES
      modifies this
      ensures (r, buffered) == FrameOf(old(buffered)) && buffered == []
    {
      if buffered == [] {
        return EndOfInput;
      }
      if |buffered| > MAX_INPUT_FRAME_BYTES {
        assert false;  // this size check never fires
        return TooLarge;
      }
      var frame := buffered;
      buffered := [];
      if frame[|frame| - 1] == CARRIAGE_RETURN {
        frame := frame[..|frame| - 1];
      }
      return Line(frame);
    }

    /**
      One call of `next_frame`.  A call may be interrupted at one of its reads, dropped there or
      failing; it then delivers nothing, and no byte is lost by it.
     */
    method NextFrame(interrupt: Option<nat>) returns (r: Option<Frame>)
      requires Valid()
      modifies this, reader
      ensures Valid()
      ensures r.None? ==> interrupt.Some? && Remaining() == old(Remaining())
      ensures r.Some? ==> (r.value, Remaining()) == FrameOf(old(Remaining()))
    {
      ghost var stream := Remaining();
      var rounds: nat := 0;
      while true
        invariant Valid() && Remaining() == stream
        decreases |reader.pending|
      {
        BufferedLineEnd(buffered, reader.pending);
        var newline := Position();
        if newline.Some? {
          if newline.value > MAX_INPUT_FRAME_BYTES {
            assert false;  // this size check never fires
            return Some(TooLarge);
          }
          var line := TakeLine(newline.value);
          return Some(line);
        }
        if |buffered| > MAX_INPUT_FRAME_BYTES {
          return Some(TooLarge);
        }
        if interrupt == Some(rounds) {
          return None;
        }
        rounds := rounds + 1;
        var remaining := MAX_INPUT_FRAME_BYTES + 1 - |buffered|;
        var chunk := reader.Read(if remaining < READ_CHUNK_BYTES then remaining else READ_CHUNK_BYTES);
        if chunk == [] {
          assert stream == buffered;
          var frame := TakeTail();
          return Some(frame);
        }
        buffered := buffered + chunk;
      }
    }

    /**
      Any sequence of calls, with any chunking and any interruptions, delivers a prefix of the
      frames of the stream, one for each call that is not interrupted, and leaves the rest deliverable.
     */
    method Drain(interrupts: seq<Option<nat>>) returns (frames: seq<Frame>, finished: bool)
      requires Valid()
      modifies this, reader
      ensures Valid()
      ensures finished ==> frames == AllFrames(old(Remaining()))
      ensures !finished ==> frames + AllFrames(Remaining()) == AllFrames(old(Remaining()))
      ensures !finished ==> |frames| >= Uninterrupted(interrupts)
    {
      frames, finished := [], false;
      ghost var whole := AllFrames(Remaining());
      for i := 0 to |interrupts|
        invariant Valid() && frames + AllFrames(Remaining()) == whole
        invariant |frames| >= Uninterrupted(interrupts[..i])
      {
        assert interrupts[..i + 1][..i] == interrupts[..i];
        ghost var before := Remaining();
        var r := NextFrame(interrupts[i]);
        if r.Some? {
          DeliverOne(frames, before);
          frames := frames + [r.value];
          if !r.value.Line? {
            return frames, true;
          }
        }
      }
      assert interrupts[..|interrupts|] == interrupts;
    }
  }

  function Uninterrupted(interrupts: seq<Option<nat>>): (n: nat) {
    if interrupts == [] then 0
    else
      var last := |interrupts| - 1;
      Uninterrupted(interrupts[..last]) + if interrupts[last].None? then 1 else 0
  }

  lemma DeliverOne(frames: seq<Frame>, stream: Bytes)
    ensures var (frame, rest) := FrameOf(stream);
      frames + AllFrames(stream) == (frames + [frame]) + if frame.Line? then AllFrames(rest) else []
  {
  }

  /** A newline already buffered is the stream's first; without one, it lies beyond the buffer. */
  lemma BufferedLineEnd(buffered: Bytes, pending: Bytes)
    ensures LineEnd(buffered) < |buffered| ==> LineEnd(buffered + pending) == LineEnd(buffered)
    ensures LineEnd(buffered) == |buffered| ==> LineEnd(buffered + pending) >= |buffered|
  {
    var whole := buffered + pending;
    assert forall i :: 0 <= i < |buffered| ==> whole[i] == buffered[i];
    if LineEnd(buffered) < |buffered| {
      assert whole[LineEnd(buffered)] == NEWLINE;
    }
  }

  lemma TakeBuffered(buffered: Bytes, pending: Bytes)
    requires LineEnd(buffered) < |buffered| && LineEnd(buffered) <= MAX_INPUT_FRAME_BYTES
    ensures FrameOf(buffered + pending).0 == Line(TrimReturn(buffered[..LineEnd(buffered)]))
    ensures FrameOf(buffered + pending).1 == buffered[LineEnd(buffered) + 1..] + pending
  {
    var n := LineEnd(buffered);
    BufferedLineEnd(buffered, pending);
    CutInside(buffered, pending, n);
  }

  lemma CutInside<T>(a: seq<T>, b: seq<T>, n: nat)
    requires n < |a|
    ensures (a + b)[..n] == a[..n] && (a + b)[n + 1..] == a[n + 1..] + b
  {
  }
}
