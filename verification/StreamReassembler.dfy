/**
  Reassembly of frames from a byte stream, and the partial-write loop on the sending side.

  The specification is an automaton that reads one byte at a time. The session's in-place buffer, refilled
  by arbitrary receives, is proved to refine it, and the automaton is proved to recover what was sent.
 */
module StreamReassembler {
  import opened Base
  import opened FrameCodec

  const OVERFLOW_LIMIT := 2 * MAX_FRAME_SIZE
  const RECEIVE_SIZE := 1024
  const SETTLED_BOUND := OVERFLOW_LIMIT + RECEIVE_SIZE - 1
  const PEAK_BOUND := SETTLED_BOUND + RECEIVE_SIZE

  // ---------------------------------------------------------------- the byte-at-a-time automaton

  /** Outside any candidate, or inside one whose bytes since the last START are run. */
  datatype Scan = Idle | InFrame(run: seq<byte>)

  datatype Outcome = Outcome(state: Scan, frames: seq<Frame>)

  /** A candidate that fails to decode drops only itself. */
  function Candidate(run: seq<byte>): seq<Frame> {
    match DecodeBody(run)
    case Ok(f) => [f]
    case Err(_) => []
  }

  function StepByte(s: Scan, b: byte): Outcome {
    if b == START then Outcome(InFrame([]), [])
    else match s
      case Idle => Outcome(Idle, [])
      case InFrame(run) => if b == END then Outcome(Idle, Candidate(run)) else Outcome(InFrame(run + [b]), [])
  }

  function Run(s: Scan, bytes: seq<byte>): Outcome
    decreases |bytes|
  {
    if bytes == [] then Outcome(s, [])
    else
      var first := StepByte(s, bytes[0]);
      var rest := Run(first.state, bytes[1..]);
      Outcome(rest.state, first.frames + rest.frames)
  }

  lemma RunOne(s: Scan, b: byte, later: seq<byte>)
    ensures var step := StepByte(s, b);
            Run(s, [b] + later) == Outcome(Run(step.state, later).state, step.frames + Run(step.state, later).frames)
  {
    assert ([b] + later)[1..] == later;
  }

  lemma {:induction false} RunConcat(s: Scan, a: seq<byte>, b: seq<byte>)
    ensures var first := Run(s, a); var second := Run(first.state, b);
            Run(s, a + b) == Outcome(second.state, first.frames + second.frames)
    decreases |a|
  {
    if a == [] {
      assert a + b == b;
      assert [] + Run(s, b).frames == Run(s, b).frames;
    } else {
      RunConcat(StepByte(s, a[0]).state, a[1..], b);
      RunConcatStep(s, a[0], a[1..], b);
      assert a == [a[0]] + a[1..];
    }
  }

  lemma {:induction false} RunConcatStep(s: Scan, x: byte, a: seq<byte>, b: seq<byte>)
    requires var t := StepByte(s, x).state; var first := Run(t, a); var second := Run(first.state, b);
             Run(t, a + b) == Outcome(second.state, first.frames + second.frames)
    ensures var first := Run(s, [x] + a); var second := Run(first.state, b);
            Run(s, [x] + a + b) == Outcome(second.state, first.frames + second.frames)
  {
    var t := StepByte(s, x);
    var first := Run(t.state, a);
    ConcatAssociative([x], a, b);
    RunOne(s, x, a + b);
    RunOne(s, x, a);
    ConcatAssociative(t.frames, first.frames, Run(first.state, b).frames);
  }

  lemma {:induction false} RunMarkerFree(run: seq<byte>, more: seq<byte>)
    requires MarkerFree(more)
    ensures Run(InFrame(run), more) == Outcome(InFrame(run + more), [])
    decreases |more|
  {
    if more == [] {
      assert run + more == run;
    } else {
      RunMarkerFree(run + [more[0]], more[1..]);
      assert run + [more[0]] + more[1..] == run + more;
    }
  }

  lemma {:induction false} RunWithoutStart(bytes: seq<byte>)
    requires START !in bytes
    ensures Run(Idle, bytes) == Outcome(Idle, [])
  {
    if bytes != [] {
      RunWithoutStart(bytes[1..]);
    }
  }

  /** The automaton's state after START and a marker-free run. */
  lemma RunOpen(buffer: seq<byte>)
    requires buffer != [] && buffer[0] == START && MarkerFree(buffer[1..])
    ensures Run(Idle, buffer) == Outcome(InFrame(buffer[1..]), [])
  {
    RunMarkerFree([], buffer[1..]);
    assert [] + buffer[1..] == buffer[1..];
  }

  /** Bytes before the first START change nothing. */
  lemma SkipNoise(buffer: seq<byte>, start: nat)
    requires start <= |buffer| && START !in buffer[..start]
    ensures Run(Idle, buffer) == Run(Idle, buffer[start..])
  {
    var noise, rest := buffer[..start], buffer[start..];
    assert buffer == noise + rest;
    RunWithoutStart(noise);
    RunConcat(Idle, noise, rest);
    assert [] + Run(Idle, rest).frames == Run(Idle, rest).frames;
  }

  /** What the first delimiter after START decides: a second START restarts, END completes the candidate. */
  lemma FirstDelimiter(buffer: seq<byte>, mark: nat)
    requires 1 <= mark < |buffer| && buffer[0] == START && MarkerFree(buffer[1..mark])
    ensures buffer[mark] == START ==> Run(Idle, buffer) == Run(Idle, buffer[mark..])
    ensures buffer[mark] == END ==>
              Run(Idle, buffer) == Outcome(Run(Idle, buffer[mark + 1..]).state,
                                           Candidate(buffer[1..mark]) + Run(Idle, buffer[mark + 1..]).frames)
  {
    RunUpTo(buffer, mark);
    var s, later := InFrame(buffer[1..mark]), buffer[mark + 1..];
    RunOne(s, buffer[mark], later);
    RunOne(Idle, buffer[mark], later);
    assert buffer[mark..] == [buffer[mark]] + later;
    assert [] + Run(InFrame([]), later).frames == Run(InFrame([]), later).frames;
  }

  lemma RunUpTo(buffer: seq<byte>, mark: nat)
    requires 1 <= mark < |buffer| && buffer[0] == START && MarkerFree(buffer[1..mark])
    ensures Run(Idle, buffer) == Run(InFrame(buffer[1..mark]), buffer[mark..])
  {
    var open := buffer[..mark];
    assert open[1..] == buffer[1..mark];
    RunOpen(open);
    assert buffer == open + buffer[mark..];
    RunConcat(Idle, open, buffer[mark..]);
    var rest := Run(InFrame(buffer[1..mark]), buffer[mark..]).frames;
    assert [] + rest == rest;
  }

  /** The parse so far: frames have been emitted and the buffer still holds the rest of what whole promises. */
  ghost predicate Remaining(whole: Outcome, frames: seq<Frame>, buffer: seq<byte>) {
    whole == Outcome(Run(Idle, buffer).state, frames + Run(Idle, buffer).frames)
  }

  lemma DecodeSlice(slice: seq<byte>)
    requires |slice| >= 2 && slice[0] == START && slice[|slice| - 1] == END
    ensures Decode(slice) == DecodeBody(slice[1..|slice| - 1])
  {
  }

  lemma RemainingAfterCandidate(whole: Outcome, frames: seq<Frame>, buffer: seq<byte>, mark: nat)
    requires 1 <= mark < |buffer| && buffer[0] == START && MarkerFree(buffer[1..mark])
    requires buffer[mark] == END && Remaining(whole, frames, buffer)
    ensures Decode(buffer[..mark + 1]) == DecodeBody(buffer[1..mark])
    ensures Remaining(whole, frames + Candidate(buffer[1..mark]), buffer[mark + 1..])
  {
    FirstDelimiter(buffer, mark);
    DecodeSlice(buffer[..mark + 1]);
    assert buffer[..mark + 1][1..mark] == buffer[1..mark];
    ConcatAssociative(frames, Candidate(buffer[1..mark]), Run(Idle, buffer[mark + 1..]).frames);
  }

  lemma RemainingAtEnd(whole: Outcome, frames: seq<Frame>, buffer: seq<byte>)
    requires buffer != [] && buffer[0] == START && MarkerFree(buffer[1..]) && Remaining(whole, frames, buffer)
    ensures whole == Outcome(InFrame(buffer[1..]), frames)
    ensures buffer == [START] + buffer[1..]
  {
    RunOpen(buffer);
    assert frames + [] == frames;
  }

  lemma {:induction false} RunGrowth(s: Scan, bytes: seq<byte>)
    requires s.InFrame? ==> MarkerFree(s.run)
    ensures var t := Run(s, bytes).state;
            t.InFrame? ==> MarkerFree(t.run) && |t.run| <= (if s.InFrame? then |s.run| else 0) + |bytes|
    decreases |bytes|
  {
    if bytes != [] {
      RunGrowth(StepByte(s, bytes[0]).state, bytes[1..]);
    }
  }

  // ---------------------------------------------------------------- the session's buffer

  /** What is left in the buffer when a parse ends in state s: an overlong run loses its START byte. */
  function Stored(s: Scan): seq<byte> {
    match s
    case Idle => []
    case InFrame(run) => if 1 + |run| > OVERFLOW_LIMIT then run else [START] + run
  }

  /** What a buffer means to the next parse: a run without START can only be discarded. */
  function Meaning(buffer: seq<byte>): Scan {
    if buffer != [] && buffer[0] == START then InFrame(buffer[1..]) else Idle
  }

  function Cap(s: Scan): Scan {
    if s.InFrame? && 1 + |s.run| > OVERFLOW_LIMIT then Idle else s
  }

  /** One receive: run the automaton over the chunk, then give up on an overlong candidate. */
  function Feed(s: Scan, chunk: seq<byte>): Outcome {
    var r := Run(s, chunk);
    Outcome(Cap(r.state), r.frames)
  }

  function Receive(s: Scan, chunks: seq<seq<byte>>): Outcome
    decreases |chunks|
  {
    if chunks == [] then Outcome(s, [])
    else
      var first := Feed(s, chunks[0]);
      var rest := Receive(first.state, chunks[1..]);
      Outcome(rest.state, first.frames + rest.frames)
  }

  /** The three shapes the buffer has between calls. */
  ghost predicate Settled(buffer: seq<byte>) {
    || buffer == []
    || (buffer[0] == START && MarkerFree(buffer[1..]) && |buffer| <= OVERFLOW_LIMIT)
    || (MarkerFree(buffer) && OVERFLOW_LIMIT <= |buffer| <= SETTLED_BOUND)
  }

  lemma SettledRuns(buffer: seq<byte>)
    requires Settled(buffer)
    ensures Run(Idle, buffer) == Outcome(Meaning(buffer), [])
    ensures Cap(Meaning(buffer)) == Meaning(buffer)
  {
    if Meaning(buffer).InFrame? {
      RunOpen(buffer);
    } else {
      RunWithoutStart(buffer);
    }
  }

  method FindFirst(bytes: seq<byte>, target: byte) returns (i: nat)
    ensures i <= |bytes|
    ensures i < |bytes| ==> bytes[i] == target
    ensures target !in bytes[..i]
  {
    i := 0;
    while i < |bytes| && bytes[i] != target
      invariant i <= |bytes| && target !in bytes[..i]
    {
      i := i + 1;
    }
  }

  /** The first START or END after the START at index 0. */
  method FindDelimiter(bytes: seq<byte>) returns (mark: nat)
    requires bytes != []
    ensures 1 <= mark <= |bytes| && MarkerFree(bytes[1..mark])
    ensures mark < |bytes| ==> bytes[mark] == START || bytes[mark] == END
  {
    mark := 1;
    while mark < |bytes| && bytes[mark] != START && bytes[mark] != END
      invariant 1 <= mark <= |bytes| && MarkerFree(bytes[1..mark])
    {
      assert bytes[1..mark + 1] == bytes[1..mark] + [bytes[mark]];
      mark := mark + 1;
    }
  }

  /** The session's stream buffer. */
  class StreamBuffer {
    var buffer: seq<byte>

    ghost predicate Valid() reads this {
      Settled(buffer)
    }

    constructor ()
      ensures Valid() && buffer == []
    {
      buffer := [];
    }

    /**
      The parse loop over whatever the buffer holds. It terminates because every iteration that does not
      return shortens the buffer.
     */
    method ParseStream() returns (frames: seq<Frame>)
      modifies this
      ensures frames == Run(Idle, old(buffer)).frames
      ensures buffer == Stored(Run(Idle, old(buffer)).state)
    {
      frames := [];
      ghost var whole := Run(Idle, buffer);
      while true
        invariant Remaining(whole, frames, buffer)
        decreases |buffer|
      {
        var start := FindFirst(buffer, START);
        SkipNoise(buffer, start);
        if start == |buffer| {
          assert frames + [] == frames;
          buffer := [];
          return;
        }
        buffer := buffer[start..];
        var mark := FindDelimiter(buffer);
        if mark == |buffer| {
          assert buffer[1..mark] == buffer[1..];
          RemainingAtEnd(whole, frames, buffer);
          if |buffer| > OVERFLOW_LIMIT {
            buffer := buffer[1..];
          }
          return;
        }
        if buffer[mark] == START {
          FirstDelimiter(buffer, mark);
          buffer := buffer[mark..];
          continue;
        }
        RemainingAfterCandidate(whole, frames, buffer, mark);
        var slice := buffer[..mark + 1];
        buffer := buffer[mark + 1..];
        var decoded := DecodeFrame(slice);
        if decoded.Ok? {
          frames := frames + [decoded.value];
        }
        assert decoded.Err? ==> frames + [] == frames;
      }
    }

    /** One receive of 1..1024 bytes: exactly one step of Feed, in any settled state. */
    method HandleIncomingBytes(chunk: seq<byte>) returns (frames: seq<Frame>)
      requires Valid()
      requires 1 <= |chunk| <= RECEIVE_SIZE
      modifies this
      ensures Valid() && |old(buffer) + chunk| <= PEAK_BOUND
      ensures Outcome(Meaning(buffer), frames) == Feed(old(Meaning(buffer)), chunk)
    {
      ghost var before := Meaning(buffer);
      SettledRuns(buffer);
      RunConcat(Idle, buffer, chunk);
      RunGrowth(before, chunk);
      buffer := buffer + chunk;
      frames := ParseStream();
      var after := Run(before, chunk);
      assert [] + after.frames == after.frames;
      assert after.state.InFrame? ==> ([START] + after.state.run)[1..] == after.state.run;
    }

    /** The reader loop over the receives it gets before the link ends. */
    method ReadAll(chunks: seq<seq<byte>>) returns (frames: seq<Frame>)
      requires Valid()
      requires forall c <- chunks :: 1 <= |c| <= RECEIVE_SIZE
      modifies this
      ensures Valid()
      ensures Outcome(Meaning(buffer), frames) == Receive(old(Meaning(buffer)), chunks)
    {
      frames := [];
      ghost var whole := Receive(Meaning(buffer), chunks);
      assert chunks[0..] == chunks;
      assert [] + whole.frames == whole.frames;
      for i := 0 to |chunks|
        invariant Valid()
        invariant whole == Outcome(Receive(Meaning(buffer), chunks[i..]).state,
                                   frames + Receive(Meaning(buffer), chunks[i..]).frames)
      {
        ghost var later := Receive(Feed(Meaning(buffer), chunks[i]).state, chunks[i..][1..]).frames;
        assert chunks[i..][1..] == chunks[i + 1..];
        var more := HandleIncomingBytes(chunks[i]);
        assert frames + (more + later) == (frames + more) + later;
        frames := frames + more;
      }
      assert frames + [] == frames;
    }
  }

  function Zeros(n: nat): (zeros: seq<byte>)
    ensures |zeros| == n && MarkerFree(zeros)
  {
    seq(n, _ => 0)
  }

  lemma {:induction false} ReceiveZeros(run: seq<byte>, n: nat)
    requires 1 + |run| + n * RECEIVE_SIZE <= OVERFLOW_LIMIT
    ensures var t := Receive(InFrame(run), seq(n, _ => Zeros(RECEIVE_SIZE))).state;
            t.InFrame? && |t.run| == |run| + n * RECEIVE_SIZE
    decreases n
  {
    if n > 0 {
      var chunks := seq(n, _ => Zeros(RECEIVE_SIZE));
      RunMarkerFree(run, chunks[0]);
      assert chunks[1..] == seq(n - 1, _ => Zeros(RECEIVE_SIZE));
      ReceiveZeros(run + chunks[0], n - 1);
    }
  }

  /**
    Both bounds are reached from the empty buffer: four receives fill a candidate to the limit, a fifth full
    one leaves 5119 bytes behind, and a sixth meets them at 6143.
   */
  lemma BufferBoundIsTight() returns (chunks: seq<seq<byte>>, last: seq<byte>)
    ensures |chunks| == 4 && (forall c <- chunks + [last] :: 1 <= |c| <= RECEIVE_SIZE)
    ensures |Stored(Run(Receive(Idle, chunks).state, last).state)| == SETTLED_BOUND
    ensures |Stored(Run(Receive(Idle, chunks).state, last).state) + last| == PEAK_BOUND
  {
    var opening := [START] + Zeros(RECEIVE_SIZE - 1);
    chunks, last := [opening] + seq(3, _ => Zeros(RECEIVE_SIZE)), Zeros(RECEIVE_SIZE);
    assert opening[1..] == Zeros(RECEIVE_SIZE - 1);
    RunOpen(opening);
    assert chunks[1..] == seq(3, _ => Zeros(RECEIVE_SIZE));
    ReceiveZeros(opening[1..], 3);
    var state := Receive(Idle, chunks).state;
    RunMarkerFree(state.run, last);
  }

  // ---------------------------------------------------------------- chunk independence

  ghost predicate Chunking(chunks: seq<seq<byte>>, stream: seq<byte>) {
    Flatten(chunks) == stream && forall c <- chunks :: 1 <= |c| <= RECEIVE_SIZE
  }

  /** The stream completes a decodable candidate of more than 4096 bytes before its END. */
  ghost predicate Overlong(s: Scan, bytes: seq<byte>)
    decreases |bytes|
  {
    bytes != [] &&
    (|| (bytes[0] == END && s.InFrame? && 1 + |s.run| > OVERFLOW_LIMIT && Candidate(s.run) != [])
     || Overlong(StepByte(s, bytes[0]).state, bytes[1..]))
  }

  lemma {:induction false} OverlongConcat(s: Scan, a: seq<byte>, b: seq<byte>)
    ensures Overlong(s, a + b) == (Overlong(s, a) || Overlong(Run(s, a).state, b))
    decreases |a|
  {
    if a == [] {
      assert a + b == b;
    } else {
      assert (a + b)[1..] == a[1..] + b;
      OverlongConcat(StepByte(s, a[0]).state, a[1..], b);
    }
  }

  /** The receiver equals the automaton, or has given up on a candidate the automaton is still in. */
  ghost predicate Tracks(receiver: Scan, automaton: Scan) {
    || receiver == automaton
    || (receiver == Idle && automaton.InFrame? && 1 + |automaton.run| > OVERFLOW_LIMIT)
  }

  lemma {:induction false} TrackedRun(receiver: Scan, automaton: Scan, bytes: seq<byte>)
    requires Tracks(receiver, automaton) && !Overlong(automaton, bytes)
    ensures Tracks(Run(receiver, bytes).state, Run(automaton, bytes).state)
    ensures Run(receiver, bytes).frames == Run(automaton, bytes).frames
    decreases |bytes|
  {
    if bytes != [] {
      TrackedRun(StepByte(receiver, bytes[0]).state, StepByte(automaton, bytes[0]).state, bytes[1..]);
    }
  }

  lemma {:induction false} TrackedReceive(receiver: Scan, automaton: Scan, chunks: seq<seq<byte>>)
    requires Tracks(receiver, automaton) && !Overlong(automaton, Flatten(chunks))
    ensures Receive(receiver, chunks).frames == Run(automaton, Flatten(chunks)).frames
    decreases |chunks|
  {
    if chunks != [] {
      OverlongConcat(automaton, chunks[0], Flatten(chunks[1..]));
      RunConcat(automaton, chunks[0], Flatten(chunks[1..]));
      TrackedRun(receiver, automaton, chunks[0]);
      TrackedReceive(Feed(receiver, chunks[0]).state, Run(automaton, chunks[0]).state, chunks[1..]);
    }
  }

  function Singles(bytes: seq<byte>): seq<seq<byte>> {
    if bytes == [] then [] else [[bytes[0]]] + Singles(bytes[1..])
  }

  lemma {:induction false} SinglesChunk(bytes: seq<byte>)
    ensures Chunking(Singles(bytes), bytes)
  {
    if bytes != [] {
      SinglesChunk(bytes[1..]);
    }
  }

  /** Delivered byte by byte, every overlong candidate is lost and nothing else is. */
  lemma {:induction false} SinglesLoseOverlong(s: Scan, bytes: seq<byte>)
    ensures |Receive(Cap(s), Singles(bytes)).frames| <= |Run(s, bytes).frames|
    ensures Overlong(s, bytes) ==> |Receive(Cap(s), Singles(bytes)).frames| < |Run(s, bytes).frames|
    decreases |bytes|
  {
    if bytes != [] {
      var chunk := [bytes[0]];
      assert chunk[1..] == [];
      var step := StepByte(s, bytes[0]);
      assert Singles(bytes)[1..] == Singles(bytes[1..]);
      assert Run(StepByte(Cap(s), bytes[0]).state, chunk[1..]).frames == [];
      assert Feed(Cap(s), chunk).state == Cap(step.state);
      SinglesLoseOverlong(step.state, bytes[1..]);
    }
  }

  /**
    Chunk independence with its exact condition: every delivery of the stream in receives of 1..1024 bytes
    emits what the automaton emits on the whole stream, if and only if the stream completes no decodable
    candidate of more than 4096 bytes.
   */
  lemma ChunkIndependence(stream: seq<byte>)
    ensures (forall chunks :: Chunking(chunks, stream) ==>
                                Receive(Idle, chunks).frames == Run(Idle, stream).frames)
            <==> !Overlong(Idle, stream)
  {
    if Overlong(Idle, stream) {
      SinglesChunk(stream);
      SinglesLoseOverlong(Idle, stream);
    } else {
      forall chunks | Chunking(chunks, stream)
        ensures Receive(Idle, chunks).frames == Run(Idle, stream).frames
      {
        TrackedReceive(Idle, Idle, chunks);
      }
    }
  }

  /** The condition is not idle: a short frame with a long ignored tail completes an overlong candidate. */
  lemma OverlongStreamsExist(f: Frame)
    requires Encode(f).Ok?
    ensures exists stream :: Overlong(Idle, stream)
  {
    var run := LongTail(f);
    var framed := [START] + run;
    assert framed[1..] == run;
    RunOpen(framed);
    OverlongConcat(Idle, framed, [END]);
    assert Overlong(InFrame(run), [END]);
    assert Overlong(Idle, framed + [END]);
  }

  /** A decodable body of more than 4096 bytes. */
  lemma LongTail(f: Frame) returns (run: seq<byte>)
    requires Encode(f).Ok?
    ensures MarkerFree(run) && |run| >= OVERFLOW_LIMIT && Candidate(run) == [f]
  {
    var tail := Zeros(OVERFLOW_LIMIT);
    run := Escape(Core(f)) + tail;
    EncodedShape(f);
    EncodeSizeRule(f);
    PlainEscape(tail);
    RoundTrip(tail);
    assert run[|Escape(Core(f))|..] == tail;
    CanonicalDecoding(run, f);
  }

  lemma {:induction false} PlainEscape(data: seq<byte>)
    requires forall b <- data :: !Reserved(b)
    ensures Escape(data) == data
  {
    if data != [] {
      assert !Reserved(data[0]);
      PlainEscape(data[1..]);
    }
  }

  // ---------------------------------------------------------------- end to end

  /** What the wire carries: whole frames, and stretches of anything else. */
  datatype Segment = Whole(frame: Frame) | Gap(noise: seq<byte>)

  /** In the gap bytes no END follows a START; open says whether one is already pending. */
  ghost predicate Quiet(open: bool, noise: seq<byte>)
    decreases |noise|
  {
    noise != [] ==>
      && !(open && noise[0] == END)
      && Quiet(OpenAfter(open, noise[..1]), noise[1..])
  }

  ghost predicate OpenAfter(open: bool, noise: seq<byte>) {
    open || START in noise
  }

  /** Every frame is encodable and no END follows a START between two whole frames. */
  ghost predicate Orderly(open: bool, segments: seq<Segment>)
    decreases |segments|
  {
    segments != [] ==>
      match segments[0]
      case Whole(f) => Encode(f).Ok? && Orderly(false, segments[1..])
      case Gap(noise) => Quiet(open, noise) && Orderly(OpenAfter(open, noise), segments[1..])
  }

  function SegmentBytes(segment: Segment): seq<byte> {
    match segment
    case Whole(f) => (match Encode(f) case Ok(w) => w case Err(_) => [])
    case Gap(noise) => noise
  }

  function Wire(segments: seq<Segment>): seq<byte> {
    if segments == [] then [] else SegmentBytes(segments[0]) + Wire(segments[1..])
  }

  function FramesOf(segments: seq<Segment>): seq<Frame> {
    if segments == [] then []
    else (match segments[0] case Whole(f) => [f] case Gap(_) => []) + FramesOf(segments[1..])
  }

  lemma {:induction false} QuietRun(s: Scan, noise: seq<byte>)
    requires Quiet(s.InFrame?, noise)
    ensures Run(s, noise).frames == [] && !Overlong(s, noise)
    ensures Run(s, noise).state.InFrame? == OpenAfter(s.InFrame?, noise)
    decreases |noise|
  {
    if noise != [] {
      QuietRun(StepByte(s, noise[0]).state, noise[1..]);
      assert noise == noise[..1] + noise[1..];
    }
  }

  lemma WholeRun(s: Scan, f: Frame)
    requires Encode(f).Ok?
    ensures Run(s, Encode(f).value) == Outcome(Idle, [f])
    ensures !Overlong(s, Encode(f).value)
  {
    EncodedShape(f);
    var body := Escape(Core(f));
    assert Encode(f).value == [START] + (body + [END]);
    RunOne(s, START, body + [END]);
    WholeBody(body);
    assert (body + [END])[..|body|] == body;
    assert Candidate(body) == [f];
    assert Encode(f).value[1..] == body + [END];
  }

  lemma WholeBody(body: seq<byte>)
    requires MarkerFree(body)
    ensures Run(InFrame([]), body + [END]) == Outcome(Idle, Candidate(body))
    ensures Overlong(InFrame([]), body + [END]) <==> 1 + |body| > OVERFLOW_LIMIT && Candidate(body) != []
  {
    assert [] + body == body;
    RunMarkerFree([], body);
    RunConcat(InFrame([]), body, [END]);
    OverlongConcat(InFrame([]), body, [END]);
    NoEndNeverOverlong(InFrame([]), body);
    AtEnd(body);
    assert [] + Candidate(body) == Candidate(body);
  }

  lemma AtEnd(body: seq<byte>)
    ensures Run(InFrame(body), [END]) == Outcome(Idle, Candidate(body))
    ensures Overlong(InFrame(body), [END]) <==> 1 + |body| > OVERFLOW_LIMIT && Candidate(body) != []
  {
    RunOne(InFrame(body), END, []);
    assert [END] + [] == [END] && [END][1..] == [];
    assert Candidate(body) + [] == Candidate(body);
  }

  lemma {:induction false} NoEndNeverOverlong(s: Scan, bytes: seq<byte>)
    requires END !in bytes
    ensures !Overlong(s, bytes)
    decreases |bytes|
  {
    if bytes != [] {
      NoEndNeverOverlong(StepByte(s, bytes[0]).state, bytes[1..]);
    }
  }

  lemma {:induction false} AutomatonRecovers(s: Scan, segments: seq<Segment>)
    requires Orderly(s.InFrame?, segments)
    ensures Run(s, Wire(segments)).frames == FramesOf(segments)
    ensures !Overlong(s, Wire(segments))
    decreases |segments|
  {
    if segments != [] {
      var head := SegmentBytes(segments[0]);
      var rest := Wire(segments[1..]);
      RunConcat(s, head, rest);
      OverlongConcat(s, head, rest);
      match segments[0] {
        case Whole(f) => WholeRun(s, f);
        case Gap(noise) => QuietRun(s, noise);
      }
      AutomatonRecovers(Run(s, head).state, segments[1..]);
    }
  }

  /**
    End to end: whatever whole frames the wire carries, whatever lies between them (as long as no END
    follows a START there) and however the bytes are delivered, the receiver emits exactly those frames,
    once each and in order.
   */
  lemma EndToEnd(segments: seq<Segment>, chunks: seq<seq<byte>>)
    requires Orderly(false, segments)
    requires Chunking(chunks, Wire(segments))
    ensures Receive(Idle, chunks).frames == FramesOf(segments)
  {
    AutomatonRecovers(Idle, segments);
    ChunkIndependence(Wire(segments));
  }

  // ---------------------------------------------------------------- the writer

  /** One call of the writer: the transport took the first accepted bytes of the encoded frame. */
  datatype Attempt = Attempt(frame: Frame, accepted: nat)

  function AttemptBytes(a: Attempt): seq<byte> {
    match Encode(a.frame)
    case Ok(w) => if a.accepted <= |w| then w[..a.accepted] else w
    case Err(_) => []
  }

  predicate Completed(a: Attempt) {
    Encode(a.frame).Ok? && a.accepted >= |Encode(a.frame).value|
  }

  function Segments(attempts: seq<Attempt>): seq<Segment> {
    seq(|attempts|, i requires 0 <= i < |attempts| =>
      if Completed(attempts[i]) then Whole(attempts[i].frame) else Gap(AttemptBytes(attempts[i])))
  }

  function Transmitted(attempts: seq<Attempt>): seq<byte> {
    if attempts == [] then [] else AttemptBytes(attempts[0]) + Transmitted(attempts[1..])
  }

  function CompletedFrames(attempts: seq<Attempt>): seq<Frame> {
    if attempts == [] then []
    else (if Completed(attempts[0]) then [attempts[0].frame] else []) + CompletedFrames(attempts[1..])
  }

  lemma {:induction false} QuietWithoutEnd(open: bool, noise: seq<byte>)
    requires END !in noise
    ensures Quiet(open, noise)
    decreases |noise|
  {
    if noise != [] {
      QuietWithoutEnd(OpenAfter(open, noise[..1]), noise[1..]);
    }
  }

  /** A write that was cut short, or never begun, leaves no END behind. */
  lemma CutAttempt(open: bool, a: Attempt)
    requires !Completed(a)
    ensures Quiet(open, AttemptBytes(a))
  {
    if Encode(a.frame).Ok? {
      EncodedShape(a.frame);
    }
    QuietWithoutEnd(open, AttemptBytes(a));
  }

  lemma {:induction false} AttemptsAreOrderly(open: bool, attempts: seq<Attempt>)
    ensures Orderly(open, Segments(attempts))
    ensures Wire(Segments(attempts)) == Transmitted(attempts)
    ensures FramesOf(Segments(attempts)) == CompletedFrames(attempts)
    decreases |attempts|
  {
    if attempts != [] {
      var head := attempts[0];
      assert Segments(attempts)[1..] == Segments(attempts[1..]);
      if Completed(head) {
        AttemptsAreOrderly(false, attempts[1..]);
      } else {
        CutAttempt(open, head);
        AttemptsAreOrderly(OpenAfter(open, AttemptBytes(head)), attempts[1..]);
      }
    }
  }

  /** Failed writes leave cut frames behind; the peer still receives exactly the frames written in full. */
  lemma WritesArrive(attempts: seq<Attempt>, chunks: seq<seq<byte>>)
    requires Chunking(chunks, Transmitted(attempts))
    ensures Receive(Idle, chunks).frames == CompletedFrames(attempts)
  {
    AttemptsAreOrderly(false, attempts);
    EndToEnd(Segments(attempts), chunks);
  }

  /** The sending side of a transport: a call takes between one and all bytes, reports EOF, or throws. */
  datatype SendOutcome = Took(n: nat) | Threw(error: ErrorCode)

  /** The calls log is history: what every send came to. */
  class Transport {
    var connected: bool
    var wire: seq<byte>
    ghost var calls: seq<SendOutcome>

    method Send(data: seq<byte>) returns (r: SendOutcome)
      requires data != []
      modifies this`wire, this`calls
      ensures r.Took? ==> r.n <= |data| && wire == old(wire) + data[..r.n]
      ensures r.Threw? ==> wire == old(wire)
      ensures calls == old(calls) + [r]
    {
      if * {
        var n :| 0 <= n <= |data|;
        wire := wire + data[..n];
        r := Took(n);
      } else {
        var code: ErrorCode :| true;
        r := Threw(code);
      }
      calls := calls + [r];
    }
  }

  /** A send that made progress. */
  predicate Progressed(call: SendOutcome) {
    call.Took? && call.n > 0
  }

  function BytesTaken(calls: seq<SendOutcome>): nat {
    if calls == [] then 0
    else BytesTaken(calls[..|calls| - 1]) + if calls[|calls| - 1].Took? then calls[|calls| - 1].n else 0
  }

  /** Every send made progress, and there was something left to send when it was made. */
  ghost predicate Progressing(calls: seq<SendOutcome>, size: nat) {
    calls != [] ==>
      var before := calls[..|calls| - 1];
      Progressing(before, size) && BytesTaken(before) < size && Progressed(calls[|calls| - 1])
  }

  /**
    The sends of one frame, as they must be: all but the last made progress and left something to send; the
    call returns normally if the last one took the rest, and otherwise reports what that one came to.
   */
  ghost predicate SendsExplain(calls: seq<SendOutcome>, size: nat, error: Option<ErrorCode>) {
    calls != [] &&
    var before, last := calls[..|calls| - 1], calls[|calls| - 1];
    && Progressing(before, size) && BytesTaken(before) < size
    && match last
       case Threw(code) => error == Some(code)
       case Took(n) => if n == 0 then error == Some(Disconnected) else error.None? && BytesTaken(calls) == size
  }

  lemma OneMoreCall(calls: seq<SendOutcome>, call: SendOutcome, size: nat)
    requires Progressing(calls, size) && BytesTaken(calls) < size
    ensures BytesTaken(calls + [call]) == BytesTaken(calls) + if call.Took? then call.n else 0
    ensures Progressed(call) ==> Progressing(calls + [call], size)
    ensures call.Threw? ==> SendsExplain(calls + [call], size, Some(call.error))
    ensures call == Took(0) ==> SendsExplain(calls + [call], size, Some(Disconnected))
    ensures Progressed(call) && BytesTaken(calls + [call]) == size ==> SendsExplain(calls + [call], size, None)
    ensures !Progressed(call) ==> !(forall c <- calls + [call] :: Progressed(c))
  {
    var all := calls + [call];
    assert all[..|calls|] == calls && call in all;
  }

  class FrameWriter {
    const transport: Transport
    var running: bool

    constructor (transport: Transport)
      ensures this.transport == transport && running
    {
      this.transport := transport;
      running := true;
    }

    /**
      Writes one frame, in as many partial sends as the transport asks for. The wire grows by one Attempt,
      complete exactly when the call returns normally; it goes on as long as sends make progress, so that a
      transport that neither throws nor reports EOF always gets the whole frame. Only a timeout leaves the
      session running after a failed send.
     */
    method WriteFrame(frame: Frame)
      returns (error: Option<ErrorCode>, ghost accepted: nat, ghost calls: seq<SendOutcome>)
      modifies this`running, transport`wire, transport`calls
      ensures transport.calls == old(transport.calls) + calls && accepted == BytesTaken(calls)
      ensures if transport.connected && Encode(frame).Ok? then SendsExplain(calls, |Encode(frame).value|, error)
              else calls == []
      ensures transport.connected && Encode(frame).Ok? && (forall call <- calls :: Progressed(call)) ==> error.None?
      ensures transport.wire == old(transport.wire) + AttemptBytes(Attempt(frame, accepted))
      ensures error.None? <==> transport.connected && Completed(Attempt(frame, accepted))
      ensures !transport.connected ==> error == Some(Disconnected) && accepted == 0
      ensures transport.connected && Encode(frame).Err? ==> error == Some(InvalidFrame)
      ensures running == (old(running) && (error.None? || error == Some(Timeout) ||
                                           !transport.connected || Encode(frame).Err?))
    {
      accepted, calls := 0, [];
      if !transport.connected {
        return Some(Disconnected), 0, [];
      }
      var encoded := EncodeFrame(frame);
      if encoded.Err? {
        return Some(encoded.error), 0, [];
      }
      error, accepted, calls := SendAll(encoded.value);
    }

    /** The partial-write loop. */
    method SendAll(bytes: seq<byte>) returns (error: Option<ErrorCode>, ghost sent: nat, ghost calls: seq<SendOutcome>)
      requires bytes != []
      modifies this`running, transport`wire, transport`calls
      ensures sent <= |bytes| && transport.wire == old(transport.wire) + bytes[..sent]
      ensures transport.calls == old(transport.calls) + calls && sent == BytesTaken(calls)
      ensures SendsExplain(calls, |bytes|, error) && (error.None? <==> sent == |bytes|)
      ensures (forall call <- calls :: Progressed(call)) ==> error.None?
      ensures running == (old(running) && (error.None? || error == Some(Timeout)))
    {
      calls := [];
      var done := 0;
      while done < |bytes|
        invariant done <= |bytes| && running == old(running) && done == BytesTaken(calls)
        invariant transport.wire == old(transport.wire) + bytes[..done]
        invariant transport.calls == old(transport.calls) + calls
        invariant Progressing(calls, |bytes|) && (done == |bytes| ==> SendsExplain(calls, |bytes|, None))
      {
        var outcome := transport.Send(bytes[done..]);
        OneMoreCall(calls, outcome, |bytes|);
        calls := calls + [outcome];
        match outcome {
          case Threw(code) =>
            if code != Timeout {
              running := false;
            }
            return Some(code), done, calls;
          case Took(n) =>
            if n == 0 {
              assert bytes[done..][..0] == [];
              running := false;
              return Some(Disconnected), done, calls;
            }
            assert bytes[..done] + bytes[done..][..n] == bytes[..done + n];
            done := done + n;
        }
      }
      return None, done, calls;
    }
  }
}
