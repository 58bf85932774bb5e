/** One request over the daemon's socket: the partial-send loop and the read-until-newline loop. */
module IpcClient {
  import opened Base
  import opened Text
  import opened IpcServer
  import opened IpcProtocol

  const READ_BUFFER := 4096

  datatype Failure = BadRequest | CannotSend | CannotRead | TimedOut | Truncated | Oversized

  datatype Reply = Line(text: string) | Failed(why: Failure)

  /**
    The client's end of the connection: what it has handed to the socket, and everything the daemon will
    ever write before it closes. sendCalls and readCalls are history: what every call came to.
   */
  class Connection {
    var outgoing: string
    var incoming: string
    ghost var sendCalls: seq<WriteOutcome>
    ghost var readCalls: seq<ReadOutcome>

    method Send(data: string) returns (r: WriteOutcome)
      requires data != ""
      modifies this`outgoing, this`sendCalls
      ensures r.Took? ==> 1 <= r.n <= |data| && outgoing == old(outgoing) + data[..r.n]
      ensures !r.Took? ==> outgoing == old(outgoing)
      ensures sendCalls == old(sendCalls) + [r]
    {
      r := WriteFailed;
      if * {
        var n :| 1 <= n <= |data|;
        outgoing := outgoing + data[..n];
        r := Took(n);
      } else if * {
        r := WouldBlock;
      }
      sendCalls := sendCalls + [r];
    }

    /** Between one and limit bytes of what is left, and the empty string at the end of the stream. */
    method Read(limit: nat) returns (r: ReadOutcome)
      requires limit >= 1
      modifies this`incoming, this`readCalls
      ensures r.Bytes? ==> r.data + incoming == old(incoming) && |r.data| <= limit
      ensures r.Bytes? ==> (r.data == "" <==> old(incoming) == "")
      ensures !r.Bytes? ==> incoming == old(incoming)
      ensures readCalls == old(readCalls) + [r]
    {
      if * {
        r := NoData;
      } else if * {
        r := ReadFailed;
      } else if incoming == "" {
        r := Bytes("");
      } else {
        var n :| 1 <= n <= |incoming| && n <= limit;
        r := Bytes(incoming[..n]);
        incoming := incoming[n..];
      }
      readCalls := readCalls + [r];
    }
  }

  /** A line the client is willing to send. */
  predicate Acceptable(line: string) {
    |line| + 1 <= MAX_REQUEST && '\n' !in line
  }

  /** One response line within the daemon's cap, and nothing after it. */
  predicate SingleLine(stream: string) {
    |stream| <= MAX_RESPONSE && IndexOfChar(stream, '\n') + 1 == |stream|
  }

  /** The failures of the socket itself, as opposed to refusals of what it delivered. */
  predicate SocketFailure(why: Failure) {
    why == CannotSend || why == CannotRead || why == TimedOut
  }

  /** Why a read gave up: the deadline, the socket, an early end of the stream, or too long a line. */
  ghost predicate FailureExplained(why: Failure, used: int, rounds: nat, calls: seq<ReadOutcome>, stream: string) {
    match why
    case TimedOut => used == rounds
    case CannotRead => calls != [] && calls[|calls| - 1] == ReadFailed
    case Truncated => calls != [] && calls[|calls| - 1] == Bytes("") && '\n' !in stream
    case Oversized => |stream| > MAX_RESPONSE
    case _ => false
  }

  class Client {
    const connection: Connection

    constructor (connection: Connection)
      ensures this.connection == connection
    {
      this.connection := connection;
    }

    /**
      Sends the line and its newline in as many pieces as the socket takes; rounds is how often the client
      can still wait before its deadline.
     */
    method SendLine(line: string, rounds: nat) returns (failure: Option<Failure>, left: nat)
      modifies connection`outgoing, connection`sendCalls
      ensures left <= rounds && |connection.sendCalls| == |old(connection.sendCalls)| + (rounds - left)
      ensures failure == Some(TimedOut) ==> left == 0
      ensures failure == Some(CannotSend) ==>
                left < rounds && connection.sendCalls[|connection.sendCalls| - 1] == WriteFailed
      ensures failure.None? ==> connection.outgoing == old(connection.outgoing) + line + "\n"
      ensures failure.Some? ==> failure.value == CannotSend || failure.value == TimedOut
      ensures exists sent :: 0 <= sent <= |line| + 1 &&
                connection.outgoing == old(connection.outgoing) + (line + "\n")[..sent]
    {
      var data := line + "\n";
      var sent := 0;
      left := rounds;
      assert data[..0] == "";
      while sent < |data|
        invariant sent <= |data| && left <= rounds
        invariant |connection.sendCalls| == |old(connection.sendCalls)| + (rounds - left)
        invariant connection.outgoing == old(connection.outgoing) + data[..sent]
        decreases left
      {
        if left == 0 {
          return Some(TimedOut), left;
        }
        left := left - 1;
        var r := connection.Send(data[sent..]);
        match r {
          case WriteFailed => return Some(CannotSend), left;
          case WouldBlock =>
          case Took(n) =>
            assert data[..sent] + data[sent..][..n] == data[..sent + n];
            sent := sent + n;
        }
      }
      assert data[..sent] == data;
      return None, left;
    }

    /**
      Reads until the first newline, in fragments of any size. The reply is always the stream's first line;
      a stream that is a single line within the cap is never refused.
     */
    method ReadLine(rounds: nat) returns (r: Reply)
      modifies connection`incoming, connection`readCalls
      ensures |old(connection.readCalls)| <= |connection.readCalls| <= |old(connection.readCalls)| + rounds
      ensures r.Failed? ==> FailureExplained(r.why, |connection.readCalls| - |old(connection.readCalls)|, rounds,
                                             connection.readCalls, old(connection.incoming))
      ensures r.Line? ==> r.text == FirstLine(old(connection.incoming)) && '\n' in old(connection.incoming)
      ensures r.Failed? && SingleLine(old(connection.incoming)) ==> SocketFailure(r.why)
      ensures r.Line? ==> |r.text| + 1 <= MAX_RESPONSE
    {
      var response, left := "", rounds;
      ghost var stream := connection.incoming;
      while left > 0
        invariant 0 <= left <= rounds && response + connection.incoming == stream && '\n' !in response
        invariant |connection.readCalls| == |old(connection.readCalls)| + (rounds - left)
      {
        left := left - 1;
        var reply: Option<Reply>;
        reply, response := ReadMore(response, stream);
        if reply.Some? {
          return reply.value;
        }
      }
      return Failed(TimedOut);
    }

    /** One read: the reply if it decides it, and otherwise what has been read so far. */
    method ReadMore(response: string, ghost stream: string) returns (reply: Option<Reply>, more: string)
      requires response + connection.incoming == stream && '\n' !in response
      modifies connection`incoming, connection`readCalls
      ensures |connection.readCalls| == |old(connection.readCalls)| + 1
      ensures reply.None? ==> more + connection.incoming == stream && '\n' !in more
      ensures match reply
              case None => true
              case Some(Line(text)) => text == FirstLine(stream) && '\n' in stream && |text| + 1 <= MAX_RESPONSE
              case Some(Failed(why)) =>
                && why != TimedOut && FailureExplained(why, 0, 0, connection.readCalls, stream)
                && (SingleLine(stream) ==> SocketFailure(why))
    {
      more := response;
      var read := connection.Read(READ_BUFFER);
      match read {
        case ReadFailed => return Some(Failed(CannotRead)), more;
        case NoData => return None, more;
        case Bytes(data) =>
          if data == "" {
            assert response == stream;
            return Some(Failed(Truncated)), more;
          }
          more := response + data;
          assert more + connection.incoming == stream;
          ReadSoFar(more, stream);
          if |more| > MAX_RESPONSE {
            return Some(Failed(Oversized)), more;
          }
          var end := Find(more, '\n');
          if end != |more| {
            return Some(Line(more[..end])), more;
          }
          return None, more;
      }
    }

    /** An acceptable line is sent whole, and the reply is the first line of what the daemon answered. */
    method Request(line: string, rounds: nat) returns (r: Reply)
      modifies connection
      ensures !Acceptable(line) ==> r == Failed(BadRequest) && unchanged(connection)
      ensures r.Line? ==> connection.outgoing == old(connection.outgoing) + line + "\n"
                          && r.text == FirstLine(old(connection.incoming))
      ensures r.Failed? && Acceptable(line) && SingleLine(old(connection.incoming)) ==> SocketFailure(r.why)
    {
      var newline := Find(line, '\n');
      if |line| + 1 > MAX_REQUEST || newline != |line| {
        assert newline != |line| ==> line[newline] == '\n';
        return Failed(BadRequest);
      }
      assert line[..newline] == line;
      var failure, left := SendLine(line, rounds);
      if failure.Some? {
        return Failed(failure.value);
      }
      r := ReadLine(left);
    }
  }

  /** What the beginning of a stream says about its first line. */
  lemma ReadSoFar(response: string, stream: string)
    requires response <= stream
    ensures |response| > MAX_RESPONSE ==> !SingleLine(stream)
    ensures var end := IndexOfChar(response, '\n');
            if end < |response| then response[..end] == FirstLine(stream) && '\n' in stream else '\n' !in response
  {
    var end := IndexOfChar(response, '\n');
    PrefixIndex(response, stream, '\n');
    if end < |response| {
      assert stream[end] == response[end] && stream[..end] == response[..end];
    } else {
      assert |response| > MAX_RESPONSE ==> |stream| > MAX_RESPONSE;
    }
  }

  lemma PrefixIndex(prefix: string, text: string, c: char)
    requires prefix <= text
    ensures IndexOfChar(prefix, c) < |prefix| ==> IndexOfChar(text, c) == IndexOfChar(prefix, c)
    ensures IndexOfChar(prefix, c) == |prefix| ==> c !in prefix && |prefix| <= IndexOfChar(text, c)
  {
    var i := IndexOfChar(prefix, c);
    assert prefix == text[..|prefix|];
    if i < |prefix| {
      assert text[..i] == prefix[..i];
      IndexOfCharUnique(text, c, i);
    } else {
      assert prefix[..i] == prefix;
      assert forall k | 0 <= k < |prefix| :: text[k] == prefix[k] && prefix[k] in prefix;
    }
  }

  /**
    The daemon's answer reaches the client whole: a serialised response within the cap whose message is one
    line is a single-line stream, and what the client parses is the response exactly if it is portable.
   */
  lemma ResponseDelivered(r: Response)
    requires |SerializeResponse(r)| <= MAX_RESPONSE && '\n' !in r.message
    ensures SingleLine(SerializeResponse(r))
    ensures ParseResponse(FirstLine(SerializeResponse(r))) == r <==> Portable(r)
  {
    ResponseThroughSocket(r);
    var line := StatusWord(r.success) + "|" + r.message + "|" + Replace(r.data, '\n', RECORD_SEPARATOR);
    assert SerializeResponse(r) == line + "\n" + "";
    IndexAfter(line, '\n', "");
  }

  /**
    One exchange, both ways, over passes of the poll loop: a newline-free line that arrives in any chunks is
    posted, as it was sent, exactly if the client would have sent it; the answer to it, written in any pieces,
    is with the client exactly when the daemon closes; and what the client parses then is the daemon's
    response exactly if it is portable.
   */
  lemma Exchange(id: nat, line: string, chunks: seq<string>, asks: seq<Seen>, r: Response, passes: seq<Seen>)
    requires '\n' !in line && Flatten(chunks) == line + "\n" && forall chunk <- chunks :: chunk != ""
    requires |asks| == |chunks| && forall i :: 0 <= i < |asks| ==> Asks(asks[i], chunks[i])
    requires |SerializeResponse(r)| <= MAX_RESPONSE && '\n' !in r.message
    requires forall i :: 0 <= i < |passes| ==> Collects(passes[i], SerializeResponse(r))
    ensures var (asked, posted) := ServeAll(NewClient(id), asks);
            && posted == (if Acceptable(line) then [line] else []) && (asked.close <==> !Acceptable(line))
            && (Acceptable(line) ==>
                  var told := ServeAll(asked.client, passes).0;
                  && (told.close <==> TakenAll(passes) >= |SerializeResponse(r)|)
                  && (told.close ==> told.client.wire == SerializeResponse(r) && SingleLine(told.client.wire)
                                     && (ParseResponse(FirstLine(told.client.wire)) == r <==> Portable(r))))
  {
    var c := NewClient(id);
    assert c.input + Flatten(chunks) == line + "\n";
    AsksAreReads(c, asks, chunks);
    RequestAssembled(c, chunks, line);
    if Acceptable(line) {
      AnswerDelivered(ServeAll(c, asks).0.client, SerializeResponse(r), passes);
      assert SerializeResponse(r)[..|SerializeResponse(r)|] == SerializeResponse(r);
      ResponseDelivered(r);
    }
  }
}
