/** The legacy client's own reassembler: one message per call, bytes past its END kept for the next call. */
module LegacyWrapper {
  import opened Base
  import opened FrameCodec
  import opened StreamReassembler

  const MAX_BLUETOOTH_MESSAGE_SIZE := 2048

  /** A message, the decoder's refusal of a framed body, or the refusal of a START inside a message. */
  datatype ReadResult = Message(frame: Frame) | Rejected(error: ErrorCode) | NestedStart

  /** The acknowledgement of a data frame carries the toggled sequence bit, truncated to a byte. */
  function AckFor(f: Frame): seq<byte> {
    if f.kind == DATA_MDR then
      (match Encode(Frame(ACK, (1 - f.sequence) % 256, [])) case Ok(w) => w case Err(_) => [])
    else []
  }

  /** What the device reads in it: an acknowledgement with the other sequence bit, for data frames only. */
  lemma AckToggles(f: Frame)
    ensures f.kind != DATA_MDR ==> AckFor(f) == []
    ensures f.kind == DATA_MDR ==>
              Decode(AckFor(f)) == Ok(Frame(ACK, if f.sequence <= 1 then 1 - f.sequence else 257 - f.sequence, []))
  {
    var number: byte := if f.sequence <= 1 then 1 - f.sequence else 257 - f.sequence;
    assert (1 - f.sequence) % 256 == number;
    EncodeSizeRule(Frame(ACK, number, []));
    DecodeEncode(Frame(ACK, number, []));
  }

  /** No delimiter at the positions from..to. */
  ghost predicate Plain(bytes: seq<byte>, from: int, to: int)
    requires 0 <= from && to <= |bytes|
  {
    forall i :: from <= i < to ==> bytes[i] != START && bytes[i] != END
  }

  ghost predicate NoStart(bytes: seq<byte>, before: int)
    requires before <= |bytes|
  {
    forall i :: 0 <= i < before ==> bytes[i] != START
  }

  /** The first START of the stream is at first, and the first delimiter after it at mark. */
  ghost predicate MessageAt(stream: seq<byte>, first: nat, mark: nat) {
    && first < mark < |stream| && NoStart(stream, first) && stream[first] == START
    && Plain(stream, first + 1, mark) && (stream[mark] == START || stream[mark] == END)
  }

  /** Enough bytes are available for a call to return: a START, and a delimiter after it. */
  ghost predicate Decided(stream: seq<byte>) {
    exists first: nat, mark: nat :: MessageAt(stream, first, mark)
  }

  lemma MessageAtUnique(stream: seq<byte>, first: nat, mark: nat, first': nat, mark': nat)
    requires MessageAt(stream, first, mark) && MessageAt(stream, first', mark')
    ensures first == first' && mark == mark'
  {
  }

  /** The platform connector as a byte pipe; the bytes the peer will have delivered are in incoming. */
  class Connector {
    var incoming: seq<byte>
    var sent: seq<byte>

    method Recv(limit: nat) returns (data: seq<byte>)
      requires incoming != [] && limit >= 1
      modifies this`incoming
      ensures 1 <= |data| <= limit && data + incoming == old(incoming)
    {
      var n :| 1 <= n <= |incoming| && n <= limit;
      data := incoming[..n];
      incoming := incoming[n..];
    }

    method Send(data: seq<byte>)
      modifies this`sent
      ensures sent == old(sent) + data
    {
      sent := sent + data;
    }
  }

  /**
    One pass over a received chunk. Message bytes of the chunk are chunk[start..end]; open says whether a
    message is still being read, finished that its END is chunk[end], nested that chunk[end] is a second START.
   */
  method ScanChunk(chunk: seq<byte>, ongoing: bool)
    returns (start: nat, end: nat, open: bool, finished: bool, nested: bool)
    ensures start <= end <= |chunk| && !(finished && nested)
    ensures open <==> (ongoing || START in chunk) && !finished && !nested
    ensures !finished && !nested ==> end == |chunk|
    ensures finished || nested ==> end < |chunk| && chunk[end] == if finished then END else START
    ensures open || finished || nested ==> Plain(chunk, start, end) && (ongoing || START in chunk)
    ensures ongoing || START !in chunk ==> start == 0
    ensures !ongoing && START in chunk ==>
              1 <= start && chunk[start - 1] == START && NoStart(chunk, start - 1)
  {
    start, end, open, finished, nested := 0, |chunk|, ongoing, false, false;
    var i := 0;
    while i < |chunk|
      invariant i <= |chunk| && start <= i && end == |chunk| && !finished && !nested
      invariant open <==> ongoing || START in chunk[..i]
      invariant open ==> Plain(chunk, start, i)
      invariant ongoing || !open ==> start == 0
      invariant !ongoing && open ==> 1 <= start && chunk[start - 1] == START && NoStart(chunk, start - 1)
    {
      assert chunk[..i + 1] == chunk[..i] + [chunk[i]];
      if chunk[i] == START {
        if open {
          open, nested, end := false, true, i;
          return;
        }
        start := i + 1;
        open := true;
      } else if open && chunk[i] == END {
        end := i;
        open := false;
        finished := true;
        return;
      }
      i := i + 1;
    }
    assert chunk[..|chunk|] == chunk;
  }

  /** The bytes of the receives before the first one that contains START. */
  function Lead(receives: seq<seq<byte>>): nat {
    if receives == [] || START in receives[0] then 0 else |receives[0]| + Lead(receives[1..])
  }

  lemma {:induction false} LeadAppend(receives: seq<seq<byte>>, chunk: seq<byte>)
    ensures Flatten(receives + [chunk]) == Flatten(receives) + chunk
    ensures START !in Flatten(receives) ==> Lead(receives) == |Flatten(receives)|
    ensures Lead(receives + [chunk]) ==
            Lead(receives) + if START in Flatten(receives) || START in chunk then 0 else |chunk|
  {
    if receives == [] {
      assert receives + [chunk] == [chunk] && [chunk][1..] == [];
      assert chunk + [] == chunk && [] + chunk == chunk;
    } else {
      var rest := receives[1..];
      assert (receives + [chunk])[1..] == rest + [chunk];
      LeadAppend(rest, chunk);
      assert receives[0] + (Flatten(rest) + chunk) == receives[0] + Flatten(rest) + chunk;
    }
  }

  /** What a call has collected after k bytes of the stream, lead of them in receives without START. */
  ghost predicate Progress(stream: seq<byte>, first: nat, mark: nat, k: nat, ongoing: bool,
                           message: seq<byte>, lead: nat) {
    && k <= mark < |stream| && lead <= first && (ongoing <==> k > first)
    && (!ongoing ==> lead == k && message == stream[..k])
    && (ongoing ==> message == stream[..lead] + stream[first + 1..k])
  }

  /** The part of a chunk that one pass covers, up to its end or to a delimiter. */
  lemma Collected(stream: seq<byte>, first: nat, mark: nat, k: nat, ongoing: bool, message: seq<byte>, lead: nat,
                chunk: seq<byte>, start: nat, end: nat)
    requires MessageAt(stream, first, mark) && Progress(stream, first, mark, k, ongoing, message, lead)
    requires chunk <= stream[k..] && start <= end <= |chunk| && (ongoing || START in chunk)
    requires Plain(chunk, start, end) && (end < |chunk| ==> chunk[end] == START || chunk[end] == END)
    requires if ongoing then start == 0 else 1 <= start && chunk[start - 1] == START && NoStart(chunk, start - 1)
    ensures k + end <= mark && first < k + end && (end < |chunk| ==> k + end == mark && chunk[end] == stream[mark])
    ensures message + chunk[start..end] == stream[..lead] + stream[first + 1..k + end]
  {
    assert forall i :: 0 <= i < |chunk| ==> chunk[i] == stream[k..][i] == stream[k + i];
    if !ongoing {
      assert k + start - 1 == first;
    }
    assert Plain(stream, k + start, k + end);
    assert stream[first + 1..k + end] == stream[first + 1..k + start] + chunk[start..end];
  }

  lemma NoneYet(stream: seq<byte>, first: nat, mark: nat, k: nat, chunk: seq<byte>)
    requires MessageAt(stream, first, mark) && k <= first && chunk <= stream[k..] && START !in chunk
    ensures k + |chunk| <= first && stream[..k] + chunk == stream[..k + |chunk|]
  {
    assert forall i :: 0 <= i < |chunk| ==> chunk[i] == stream[k..][i] == stream[k + i];
  }

  /** A pass that neither finishes nor fails. */
  lemma ProgressStep(stream: seq<byte>, first: nat, mark: nat, k: nat, ongoing: bool, message: seq<byte>, lead: nat,
                     chunk: seq<byte>, start: nat, open: bool)
    requires MessageAt(stream, first, mark) && Progress(stream, first, mark, k, ongoing, message, lead)
    requires chunk <= stream[k..] && start <= |chunk| && (open <==> ongoing || START in chunk)
    requires open ==> Plain(chunk, start, |chunk|)
    requires ongoing || START !in chunk ==> start == 0
    requires !ongoing && START in chunk ==> 1 <= start && chunk[start - 1] == START && NoStart(chunk, start - 1)
    ensures Progress(stream, first, mark, k + |chunk|, open, message + chunk[start..],
                     if open then lead else lead + |chunk|)
  {
    if open {
      Collected(stream, first, mark, k, ongoing, message, lead, chunk, start, |chunk|);
      assert chunk[start..|chunk|] == chunk[start..];
    } else {
      NoneYet(stream, first, mark, k, chunk);
      assert chunk[start..] == chunk;
    }
  }

  /** The receives of one call: nonempty, together a prefix of the stream, and reaching beyond mark. */
  ghost predicate ReceivesOf(stream: seq<byte>, mark: nat, receives: seq<seq<byte>>) {
    && Flatten(receives) <= stream && mark < |Flatten(receives)|
    && forall i :: 0 <= i < |receives| ==> receives[i] != []
  }

  /**
    What one call reads. END: the bytes between START and END, preceded by all receives that came before the
    one with START; what follows END stays. A second START: nothing, and the rest of that receive is lost.
   */
  ghost predicate BodyRead(stream: seq<byte>, first: nat, mark: nat, receives: seq<seq<byte>>,
                           body: Option<seq<byte>>, pending: seq<byte>) {
    && MessageAt(stream, first, mark) && ReceivesOf(stream, mark, receives) && Lead(receives) <= first
    && if stream[mark] == END
       then body == Some(stream[..Lead(receives)] + stream[first + 1..mark]) && pending == stream[mark + 1..]
       else body == None && pending == stream[|Flatten(receives)|..]
  }

  function FromBody(body: Option<seq<byte>>): ReadResult {
    match body
    case None => NestedStart
    case Some(b) => (match DecodeBody(b) case Ok(f) => Message(f) case Err(e) => Rejected(e))
  }

  /** The clean body comes back exactly if every byte before START arrived in the same receive as START. */
  lemma NoiseIsKept(stream: seq<byte>, first: nat, mark: nat, receives: seq<seq<byte>>)
    requires MessageAt(stream, first, mark) && ReceivesOf(stream, mark, receives) && Lead(receives) <= first
    ensures stream[..Lead(receives)] + stream[first + 1..mark] == stream[first + 1..mark] <==>
            first < |receives[0]|
  {
    assert |stream[..Lead(receives)] + stream[first + 1..mark]| == Lead(receives) + (mark - first - 1);
    assert Flatten(receives) == receives[0] + Flatten(receives[1..]);
    assert forall i :: 0 <= i < |receives[0]| ==> receives[0][i] == Flatten(receives)[i] == stream[i];
    if Lead(receives) == 0 {
      assert [] + stream[first + 1..mark] == stream[first + 1..mark];
    }
  }

  /** One byte of noise in a receive of its own makes the next frame unreadable. */
  lemma NoiseSpoils(f: Frame) returns (noise: byte, receives: seq<seq<byte>>, mark: nat, body: seq<byte>)
    requires Encode(f).Ok?
    ensures BodyRead([noise] + Encode(f).value, 1, mark, receives, Some(body), [])
    ensures FromBody(Some(body)) != Message(f)
  {
    EncodedShape(f);
    noise := if f.kind == 0 then 1 else 0;
    var clean, w := Escape(Core(f)), Encode(f).value;
    receives, mark, body := [[noise], w], 2 + |clean|, [noise] + clean;
    TwoReceives([noise], w);
    NoisyStream(noise, clean);
    assert [noise] + w == [noise] + ([START] + clean + [END]);
    NoisyBody(noise, f);
  }

  lemma NoisyStream(noise: byte, clean: seq<byte>)
    requires noise != START && MarkerFree(clean)
    ensures var stream := [noise] + ([START] + clean + [END]); var mark := 2 + |clean|;
            && MessageAt(stream, 1, mark) && stream[mark] == END && stream[mark + 1..] == []
            && stream[..1] + stream[2..mark] == [noise] + clean
  {
    var stream := [noise] + ([START] + clean + [END]);
    assert stream[2..2 + |clean|] == clean;
    assert forall i :: 2 <= i < 2 + |clean| ==> stream[i] == clean[i - 2];
  }

  lemma NoisyBody(noise: byte, f: Frame)
    requires noise != ESCAPE && noise != f.kind
    ensures DecodeBody([noise] + Escape(Core(f))) != Ok(f)
  {
    var body := [noise] + Escape(Core(f));
    assert body[1..] == Escape(Core(f));
    assert Unescape(body).Some? ==> Unescape(body).value[0] == noise;
  }

  lemma TwoReceives(noise: seq<byte>, w: seq<byte>)
    requires START !in noise && START in w
    ensures Flatten([noise, w]) == noise + w && Lead([noise, w]) == |noise|
  {
    var rest := [noise, w][1..];
    assert rest == [w] && rest[1..] == [];
    assert Flatten(rest) == w + [] == w && Lead(rest) == 0;
  }

  /** The receives so far, as part of the stream. */
  ghost predicate Consumed(stream: seq<byte>, k: nat, receives: seq<seq<byte>>) {
    && k <= |stream| && Flatten(receives) == stream[..k]
    && forall i :: 0 <= i < |receives| ==> receives[i] != []
  }

  /** Where the receive loop stands. */
  ghost predicate Reading(stream: seq<byte>, first: nat, mark: nat, k: nat, ongoing: bool, message: seq<byte>,
                          receives: seq<seq<byte>>) {
    && MessageAt(stream, first, mark) && Consumed(stream, k, receives)
    && Progress(stream, first, mark, k, ongoing, message, Lead(receives))
  }

  lemma ReadingStarts(stream: seq<byte>) returns (first: nat, mark: nat)
    requires Decided(stream)
    ensures Reading(stream, first, mark, 0, false, [], [])
  {
    first, mark :| MessageAt(stream, first, mark);
  }

  lemma ConsumedStep(stream: seq<byte>, first: nat, mark: nat, k: nat, ongoing: bool, message: seq<byte>,
                     receives: seq<seq<byte>>, chunk: seq<byte>)
    requires MessageAt(stream, first, mark) && Progress(stream, first, mark, k, ongoing, message, Lead(receives))
    requires Consumed(stream, k, receives) && chunk != [] && chunk <= stream[k..]
    ensures Consumed(stream, k + |chunk|, receives + [chunk])
    ensures Lead(receives + [chunk]) == if ongoing || START in chunk then Lead(receives) else k + |chunk|
  {
    LeadAppend(receives, chunk);
    assert stream[..k] + chunk == stream[..k + |chunk|];
    if ongoing {
      assert stream[..k][first] == START;
    } else {
      assert START !in stream[..k];
    }
  }

  /** A pass that goes on. */
  lemma ReadingStep(stream: seq<byte>, first: nat, mark: nat, k: nat, ongoing: bool, message: seq<byte>,
                    receives: seq<seq<byte>>, chunk: seq<byte>, start: nat, open: bool)
    requires Reading(stream, first, mark, k, ongoing, message, receives)
    requires chunk != [] && chunk <= stream[k..] && start <= |chunk| && (open <==> ongoing || START in chunk)
    requires open ==> Plain(chunk, start, |chunk|)
    requires ongoing || START !in chunk ==> start == 0
    requires !ongoing && START in chunk ==> 1 <= start && chunk[start - 1] == START && NoStart(chunk, start - 1)
    ensures Reading(stream, first, mark, k + |chunk|, open, message + chunk[start..], receives + [chunk])
  {
    ConsumedStep(stream, first, mark, k, ongoing, message, receives, chunk);
    ProgressStep(stream, first, mark, k, ongoing, message, Lead(receives), chunk, start, open);
  }

  /** A pass that finishes or fails. */
  lemma BodyReadAtStop(stream: seq<byte>, first: nat, mark: nat, k: nat, ongoing: bool, message: seq<byte>,
                       receives: seq<seq<byte>>, chunk: seq<byte>, start: nat, end: nat)
    requires MessageAt(stream, first, mark) && Progress(stream, first, mark, k, ongoing, message, Lead(receives))
    requires Consumed(stream, k, receives) && chunk <= stream[k..] && start <= end < |chunk|
    requires (ongoing || START in chunk) && Plain(chunk, start, end) && (chunk[end] == START || chunk[end] == END)
    requires if ongoing then start == 0 else 1 <= start && chunk[start - 1] == START && NoStart(chunk, start - 1)
    ensures k + end == mark && chunk[end] == stream[mark]
    ensures chunk[end] == END ==>
              BodyRead(stream, first, mark, receives + [chunk], Some(message + chunk[start..end]), stream[mark + 1..])
    ensures chunk[end] == START ==>
              BodyRead(stream, first, mark, receives + [chunk], None, stream[k + |chunk|..])
  {
    Collected(stream, first, mark, k, ongoing, message, Lead(receives), chunk, start, end);
    ConsumedStep(stream, first, mark, k, ongoing, message, receives, chunk);
  }

  lemma BodyServed(stream: seq<byte>, first: nat, mark: nat, receives: seq<seq<byte>>,
                   body: Option<seq<byte>>, pending: seq<byte>)
    requires BodyRead(stream, first, mark, receives, body, pending)
    ensures Served(stream, first, mark, receives, FromBody(body), pending)
  {
  }

  class BluetoothWrapper {
    const connector: Connector
    var leftover: seq<byte>

    constructor (connector: Connector)
      ensures this.connector == connector && leftover == []
    {
      this.connector := connector;
      leftover := [];
    }

    /** Everything not yet consumed: what an earlier receive left over, then what is still to be received. */
    ghost function Pending(): seq<byte> reads this, connector {
      leftover + connector.incoming
    }

    ghost predicate Valid() reads this {
      |leftover| < MAX_BLUETOOTH_MESSAGE_SIZE
    }

    /** Replays what is left over before blocking on the connector again. */
    method NextChunk() returns (chunk: seq<byte>)
      requires Valid() && Pending() != []
      modifies this`leftover, connector`incoming
      ensures 1 <= |chunk| <= MAX_BLUETOOTH_MESSAGE_SIZE && leftover == [] && chunk + Pending() == old(Pending())
    {
      if leftover != [] {
        chunk := leftover;
        leftover := [];
      } else {
        chunk := connector.Recv(MAX_BLUETOOTH_MESSAGE_SIZE);
      }
    }

    /**
      The receive loop of one call; None is the refusal of a START inside a message. The ghost results are
      where the message is in the stream, and the receives it took.
     */
    method ReadBody() returns (body: Option<seq<byte>>, ghost first: nat, ghost mark: nat,
                               ghost receives: seq<seq<byte>>)
      requires Valid() && Decided(Pending())
      modifies this`leftover, connector`incoming
      ensures Valid() && BodyRead(old(Pending()), first, mark, receives, body, Pending())
    {
      ghost var stream := Pending();
      first, mark := ReadingStarts(stream);
      receives := [];
      var ongoing, message := false, [];
      ghost var k := 0;
      while true
        invariant Valid() && Reading(stream, first, mark, k, ongoing, message, receives) && Pending() == stream[k..]
        decreases |stream| - k
      {
        var part, open, finished, nested;
        ghost var chunk;
        part, open, finished, nested, chunk := Pass(ongoing, stream, first, mark, k, message, receives);
        receives := receives + [chunk];
        if nested {
          return None, first, mark, receives;
        }
        message := message + part;
        if finished {
          return Some(message), first, mark, receives;
        }
        ongoing := open;
        k := k + |chunk|;
      }
    }

    /** One receive of the loop: the part of the message it brings, and what is left over when that ends it. */
    method Pass(ongoing: bool, ghost stream: seq<byte>, ghost first: nat, ghost mark: nat, ghost k: nat,
                ghost message: seq<byte>, ghost receives: seq<seq<byte>>)
      returns (part: seq<byte>, open: bool, finished: bool, nested: bool, ghost chunk: seq<byte>)
      requires Valid() && Reading(stream, first, mark, k, ongoing, message, receives) && Pending() == stream[k..]
      modifies this`leftover, connector`incoming
      ensures Valid() && chunk != [] && k + |chunk| <= |stream|
      ensures nested ==> BodyRead(stream, first, mark, receives + [chunk], None, Pending())
      ensures finished && !nested ==> BodyRead(stream, first, mark, receives + [chunk], Some(message + part), Pending())
      ensures !finished && !nested ==>
                && Reading(stream, first, mark, k + |chunk|, open, message + part, receives + [chunk])
                && Pending() == stream[k + |chunk|..]
    {
      var received := NextChunk();
      chunk := received;
      assert Pending() == stream[k + |chunk|..];
      var start, end;
      start, end, open, finished, nested := ScanChunk(received, ongoing);
      part := received[start..end];
      if nested || finished {
        BodyReadAtStop(stream, first, mark, k, ongoing, message, receives, chunk, start, end);
      } else {
        ReadingStep(stream, first, mark, k, ongoing, message, receives, chunk, start, open);
        assert part == chunk[start..];
      }
      if finished {
        leftover := received[end + 1..];
        assert Pending() == stream[mark + 1..];
      }
    }

    /** One call, however the stream is split into receives; a data frame is acknowledged. */
    method ReadMessage() returns (r: ReadResult, ghost first: nat, ghost mark: nat, ghost receives: seq<seq<byte>>)
      requires Valid() && Decided(Pending())
      modifies this`leftover, connector
      ensures Valid() && Served(old(Pending()), first, mark, receives, r, Pending())
      ensures connector.sent == old(connector.sent) + if r.Message? then AckFor(r.frame) else []
    {
      var body: Option<seq<byte>>;
      body, first, mark, receives := ReadBody();
      ghost var left := Pending();
      BodyServed(old(Pending()), first, mark, receives, body, left);
      if body.None? {
        return NestedStart, first, mark, receives;
      }
      var decoded := DecodeBodyBytes(body.value);
      if decoded.Err? {
        return Rejected(decoded.error), first, mark, receives;
      }
      var message := decoded.value;
      if message.kind == DATA_MDR {
        var reply := Frame(ACK, (1 - message.sequence) % 256, []);
        EncodeSizeRule(reply);
        var ack := EncodeFrame(reply);
        assert ack.value == AckFor(message);
        connector.Send(ack.value);
      }
      r := Message(message);
      assert r == FromBody(body) && Pending() == left;
    }

    /** One call in front of the i-th body. */
    method ReadNext(ghost bodies: seq<seq<byte>>, ghost i: nat) returns (r: ReadResult)
      requires Valid() && i < |bodies| && AllMarkerFree(bodies) && Pending() == Framed(bodies[i..])
      modifies this`leftover, connector
      ensures Valid() && r == FromBody(Some(bodies[i])) && Pending() == Framed(bodies[i + 1..])
    {
      FramedHead(bodies, i);
      ghost var first, mark, receives;
      r, first, mark, receives := ReadMessage();
      FramedServed(bodies, i, first, mark, receives, r, Pending());
    }

    /**
      Over any framed bodies, decodable or not: the k-th call returns what the k-th body decodes to, and what
      is pending is always the framing of the others.
     */
    method ReadMessages(ghost bodies: seq<seq<byte>>, count: nat) returns (results: seq<ReadResult>)
      requires Valid() && AllMarkerFree(bodies) && count <= |bodies| && Pending() == Framed(bodies)
      modifies this`leftover, connector
      ensures Valid() && results == Results(bodies[..count]) && Pending() == Framed(bodies[count..])
    {
      results := [];
      assert bodies[0..] == bodies;
      for i := 0 to count
        invariant Valid() && results == Results(bodies[..i]) && Pending() == Framed(bodies[i..])
      {
        var r := ReadNext(bodies, i);
        assert Results(bodies[..i + 1]) == Results(bodies[..i]) + [r];
        results := results + [r];
      }
    }
  }

  ghost predicate Served(stream: seq<byte>, first: nat, mark: nat, receives: seq<seq<byte>>,
                         r: ReadResult, pending: seq<byte>) {
    && MessageAt(stream, first, mark) && ReceivesOf(stream, mark, receives) && Lead(receives) <= first
    && if stream[mark] == END
       then r == FromBody(Some(stream[..Lead(receives)] + stream[first + 1..mark])) && pending == stream[mark + 1..]
       else r == NestedStart && pending == stream[|Flatten(receives)|..]
  }

  ghost predicate AllMarkerFree(bodies: seq<seq<byte>>) {
    forall i :: 0 <= i < |bodies| ==> MarkerFree(bodies[i])
  }

  /** The bodies, each between its delimiters. */
  function Framed(bodies: seq<seq<byte>>): seq<byte> {
    if bodies == [] then [] else [START] + bodies[0] + [END] + Framed(bodies[1..])
  }

  function Results(bodies: seq<seq<byte>>): seq<ReadResult> {
    seq(|bodies|, i requires 0 <= i < |bodies| => FromBody(Some(bodies[i])))
  }

  lemma FramedHead(bodies: seq<seq<byte>>, i: nat)
    requires AllMarkerFree(bodies) && i < |bodies|
    ensures var stream := Framed(bodies[i..]); var mark := 1 + |bodies[i]|;
            && MessageAt(stream, 0, mark) && stream[mark] == END
            && stream[1..mark] == bodies[i] && stream[mark + 1..] == Framed(bodies[i + 1..])
  {
    var rest := Framed(bodies[i + 1..]);
    var stream := [START] + bodies[i] + [END] + rest;
    assert bodies[i..][1..] == bodies[i + 1..];
    assert Framed(bodies[i..]) == stream;
    assert forall k :: 1 <= k < 1 + |bodies[i]| ==> stream[k] == bodies[i][k - 1];
  }

  lemma FramedServed(bodies: seq<seq<byte>>, i: nat, first: nat, mark: nat, receives: seq<seq<byte>>,
                     r: ReadResult, pending: seq<byte>)
    requires AllMarkerFree(bodies) && i < |bodies|
    requires Served(Framed(bodies[i..]), first, mark, receives, r, pending)
    ensures r == FromBody(Some(bodies[i])) && pending == Framed(bodies[i + 1..])
  {
    FramedHead(bodies, i);
    var stream := Framed(bodies[i..]);
    MessageAtUnique(stream, first, mark, 0, 1 + |bodies[i]|);
    assert [] + stream[1..mark] == stream[1..mark];
  }

  // ---------------------------------------------------------------- agreement with the session's parser

  /** The frames among the results of successive calls. */
  function Messages(results: seq<ReadResult>): seq<Frame> {
    if results == [] then []
    else (if results[0].Message? then [results[0].frame] else []) + Messages(results[1..])
  }

  lemma FramedOne(body: seq<byte>)
    requires MarkerFree(body)
    ensures Run(Idle, [START] + body + [END]) == Outcome(Idle, Candidate(body))
    ensures Overlong(Idle, [START] + body + [END]) <==> 1 + |body| > OVERFLOW_LIMIT && Candidate(body) != []
  {
    var w := [START] + body + [END];
    assert w == [START] + (body + [END]) && w[1..] == body + [END];
    RunOne(Idle, START, body + [END]);
    WholeBody(body);
    assert [] + Candidate(body) == Candidate(body);
  }

  lemma {:induction false} FramedRun(bodies: seq<seq<byte>>)
    requires AllMarkerFree(bodies)
    ensures Run(Idle, Framed(bodies)) == Outcome(Idle, Messages(Results(bodies)))
    ensures Overlong(Idle, Framed(bodies)) <==>
            exists i :: 0 <= i < |bodies| && 1 + |bodies[i]| > OVERFLOW_LIMIT && Candidate(bodies[i]) != []
  {
    if bodies != [] {
      var rest := bodies[1..];
      FramedRun(rest);
      FramedOne(bodies[0]);
      RunConcat(Idle, [START] + bodies[0] + [END], Framed(rest));
      OverlongConcat(Idle, [START] + bodies[0] + [END], Framed(rest));
      assert Results(bodies)[1..] == Results(rest);
      assert forall i :: 1 <= i < |bodies| ==> bodies[i] == rest[i - 1];
    }
  }

  /**
    The two reassemblers agree: over any framed bodies, corrupt ones included, the session's parser emits in
    every chunking exactly the frames the successive calls of the legacy reader return, if and only if no
    decodable body is overlong.
   */
  lemma ReassemblersAgree(bodies: seq<seq<byte>>)
    requires AllMarkerFree(bodies)
    ensures (forall chunks :: Chunking(chunks, Framed(bodies)) ==>
                                Receive(Idle, chunks).frames == Messages(Results(bodies)))
            <==> forall i :: 0 <= i < |bodies| && 1 + |bodies[i]| > OVERFLOW_LIMIT ==> Candidate(bodies[i]) == []
  {
    FramedRun(bodies);
    ChunkIndependence(Framed(bodies));
  }

  function Bodies(frames: seq<Frame>): seq<seq<byte>> {
    seq(|frames|, i requires 0 <= i < |frames| => Escape(Core(frames[i])))
  }

  function EncodeAll(frames: seq<Frame>): seq<byte>
    requires forall i :: 0 <= i < |frames| ==> Encode(frames[i]).Ok?
  {
    if frames == [] then [] else Encode(frames[0]).value + EncodeAll(frames[1..])
  }

  /** Encoded frames are framed bodies; every call returns the next frame, and the session's parser agrees. */
  lemma {:induction false} EncodedFramesAgree(frames: seq<Frame>, chunks: seq<seq<byte>>)
    requires forall i :: 0 <= i < |frames| ==> Encode(frames[i]).Ok?
    requires Chunking(chunks, EncodeAll(frames))
    ensures AllMarkerFree(Bodies(frames)) && Framed(Bodies(frames)) == EncodeAll(frames)
    ensures forall i :: 0 <= i < |frames| ==> Results(Bodies(frames))[i] == Message(frames[i])
    ensures Receive(Idle, chunks).frames == frames == Messages(Results(Bodies(frames)))
  {
    EncodedBodiesAt(frames);
    EncodedFraming(frames);
    AllMessages(Results(Bodies(frames)), frames);
    ReassemblersAgree(Bodies(frames));
  }

  lemma EncodedBodiesAt(frames: seq<Frame>)
    requires forall i :: 0 <= i < |frames| ==> Encode(frames[i]).Ok?
    ensures AllMarkerFree(Bodies(frames))
    ensures forall i :: 0 <= i < |frames| ==> |Bodies(frames)[i]| <= MAX_FRAME_SIZE
    ensures forall i :: 0 <= i < |frames| ==> Results(Bodies(frames))[i] == Message(frames[i])
  {
    forall i | 0 <= i < |frames|
      ensures MarkerFree(Bodies(frames)[i]) && |Bodies(frames)[i]| <= MAX_FRAME_SIZE
      ensures Results(Bodies(frames))[i] == Message(frames[i])
    {
      EncodedShape(frames[i]);
    }
  }

  lemma {:induction false} EncodedFraming(frames: seq<Frame>)
    requires forall i :: 0 <= i < |frames| ==> Encode(frames[i]).Ok?
    ensures Framed(Bodies(frames)) == EncodeAll(frames)
  {
    if frames != [] {
      EncodedShape(frames[0]);
      EncodedFraming(frames[1..]);
      assert Bodies(frames)[1..] == Bodies(frames[1..]);
    }
  }

  lemma {:induction false} AllMessages(results: seq<ReadResult>, frames: seq<Frame>)
    requires |results| == |frames| && forall i :: 0 <= i < |frames| ==> results[i] == Message(frames[i])
    ensures Messages(results) == frames
  {
    if frames != [] {
      AllMessages(results[1..], frames[1..]);
      assert [frames[0]] + frames[1..] == frames;
    }
  }
}
