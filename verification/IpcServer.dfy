/**
  The daemon's poll loop: request assembly, one outstanding request per connection, partial responses, and
  the backward pass over a client table that shrinks while it is being scanned.
 */
module IpcServer {
  import opened Base
  import opened Text

  const MAX_CLIENTS := 16
  const MAX_JOBS := 16
  const MAX_REQUEST := 16 * 1024
  const MAX_RESPONSE := 256 * 1024
  const READ_SIZE := 1024

  /**
    A connection. requested says that its job exists, waiting that the job's future has not been collected.
    wire is history: what the socket has taken so far.
   */
  datatype Client = Client(
    id: nat,
    input: string,
    output: string,
    sent: nat,
    requested: bool,
    waiting: bool,
    wire: string)

  datatype ReadOutcome = Bytes(data: string) | NoData | ReadFailed
  datatype WriteOutcome = Took(n: nat) | WouldBlock | WriteFailed

  /** Everything one pass observes about one connection. */
  datatype Seen = Seen(
    expired: bool,
    broken: bool,
    readable: bool,
    ready: Option<string>,
    read: ReadOutcome,
    write: WriteOutcome)

  /** What a pass makes of one connection; line is the request it completed. */
  datatype Served = Served(client: Client, close: bool, line: Option<string>)

  function NewClient(id: nat): Client {
    Client(id, "", "", 0, false, false, "")
  }

  function Collected(c: Client, ready: Option<string>): Client {
    if c.waiting && ready.Some? then c.(output := ready.value, waiting := false) else c
  }

  function AfterRead(c: Client, read: ReadOutcome): Served {
    match read
    case NoData => Served(c, false, None)
    case ReadFailed => Served(c, true, None)
    case Bytes(data) =>
      if c.requested then Served(c, true, None)
      else
        var d := c.(input := c.input + data);
        var end := IndexOfChar(d.input, '\n');
        if |d.input| > MAX_REQUEST then Served(d, true, None)
        else if end == |d.input| then Served(d, false, None)
        else if end + 1 != |d.input| then Served(d, true, None)
        else Served(d.(requested := true, waiting := true), false, Some(d.input[..end]))
  }

  function AfterWrite(c: Client, write: WriteOutcome): Served {
    match write
    case WriteFailed => Served(c, true, None)
    case WouldBlock => Served(c, c.sent == |c.output|, None)
    case Took(n) =>
      var to := if c.sent + n < |c.output| then c.sent + n else |c.output|;
      if to <= c.sent then Served(c, c.sent == |c.output|, None)
      else Served(c.(sent := to, wire := c.wire + c.output[c.sent..to]), to == |c.output|, None)
  }

  function Serve(c: Client, seen: Seen): Served {
    if seen.expired || seen.broken then Served(c, true, None)
    else
      var c1 := Collected(c, seen.ready);
      var read := if seen.readable then AfterRead(c1, seen.read) else Served(c1, false, None);
      if read.close || read.client.output == "" then read
      else AfterWrite(read.client, seen.write).(line := read.line)
  }

  /** The read branch of the pass. */
  method ReadFrom(client: Client, read: ReadOutcome) returns (c: Client, close: bool, line: Option<string>)
    ensures Served(c, close, line) == AfterRead(client, read)
  {
    c, close, line := client, false, None;
    match read {
      case ReadFailed => close := true;
      case NoData =>
      case Bytes(data) =>
        if c.requested {
          close := true;
        } else {
          c := c.(input := c.input + data);
          var end := Find(c.input, '\n');
          if |c.input| > MAX_REQUEST {
            close := true;
          } else if end != |c.input| {
            if end + 1 != |c.input| {
              close := true;
            } else {
              line := Some(c.input[..end]);
              c := c.(requested := true, waiting := true);
            }
          }
        }
    }
  }

  /** The write branch of the pass. */
  method SendTo(client: Client, write: WriteOutcome) returns (c: Client, close: bool)
    ensures Served(c, close, None) == AfterWrite(client, write)
  {
    c, close := client, false;
    match write {
      case WriteFailed => close := true;
      case WouldBlock =>
      case Took(n) =>
        var to := if c.sent + n < |c.output| then c.sent + n else |c.output|;
        if to > c.sent {
          c := c.(sent := to, wire := c.wire + c.output[c.sent..to]);
        }
    }
    if c.sent == |c.output| {
      close := true;
    }
  }

  /** The poll loop's client table. */
  class ServerLoop {
    var clients: seq<Client>

    constructor ()
      ensures clients == []
    {
      clients := [];
    }

    /** The body of the pass for one connection, in the order the loop does it. */
    method ServeOne(i: nat, seen: Seen) returns (close: bool, line: Option<string>)
      requires i < |clients|
      modifies this
      ensures |clients| == |old(clients)| && clients == old(clients)[i := clients[i]]
      ensures Served(clients[i], close, line) == Serve(old(clients)[i], seen)
    {
      var c := clients[i];
      close := seen.expired || seen.broken;
      line := None;
      if !close && c.waiting && seen.ready.Some? {
        c := c.(output := seen.ready.value, waiting := false);
      }
      if !close && seen.readable {
        c, close, line := ReadFrom(c, seen.read);
      }
      if !close && c.output != "" {
        c, close := SendTo(c, seen.write);
      }
      clients := clients[i := c];
    }

    /**
      One pass over the poll results: fds[0] is the listening socket and fds[i + 1] belongs to client i when
      the pass starts. Every client is served exactly once with its own events although closed clients are
      erased on the way; the survivors keep their order, and what was posted and closed is reported in the
      order of the scan.
     */
    method Pass(fds: seq<Seen>) returns (posted: seq<(nat, string)>, closed: seq<nat>)
      requires |fds| == |clients| + 1
      modifies this
      ensures clients == Survivors(old(clients), fds[1..])
      ensures posted == Posted(old(clients), fds[1..])
      ensures closed == Closed(old(clients), fds[1..])
    {
      posted, closed := [], [];
      ghost var start, seen := clients, fds[1..];
      assert start[|start|..] == [] && seen[|start|..] == [];
      var i := |clients|;
      while i > 0
        invariant 0 <= i <= |start| == |seen| && i <= |clients| && clients[..i] == start[..i]
        invariant clients[i..] == Survivors(start[i..], seen[i..])
        invariant posted == Posted(start[i..], seen[i..])
        invariant closed == Closed(start[i..], seen[i..])
      {
        i := i - 1;
        assert clients[i] == clients[..i + 1][i] == start[..i + 1][i];
        ghost var later := clients[i + 1..];
        var close, line := ServeOne(i, fds[i + 1]);
        ScannedStep(start, seen, i);
        assert clients[i + 1..] == later && clients[..i] == start[..i];
        if line.Some? {
          posted := posted + [(clients[i].id, line.value)];
        }
        if close {
          closed := closed + [clients[i].id];
          clients := clients[..i] + clients[i + 1..];
        }
        assert clients[i..] == if close then later else [clients[i]] + later;
      }
    }
  }

  /** What serving client i adds to the results for the clients behind it. */
  lemma ScannedStep(clients: seq<Client>, seen: seq<Seen>, i: nat)
    requires i < |clients| == |seen|
    ensures var s := Serve(clients[i], seen[i]);
            && Survivors(clients[i..], seen[i..]) ==
               (if s.close then [] else [s.client]) + Survivors(clients[i + 1..], seen[i + 1..])
            && Posted(clients[i..], seen[i..]) ==
               Posted(clients[i + 1..], seen[i + 1..]) + (if s.line.Some? then [(s.client.id, s.line.value)] else [])
            && Closed(clients[i..], seen[i..]) ==
               Closed(clients[i + 1..], seen[i + 1..]) + if s.close then [s.client.id] else []
  {
    assert clients[i..][1..] == clients[i + 1..] && seen[i..][1..] == seen[i + 1..];
  }

  function Survivors(clients: seq<Client>, seen: seq<Seen>): seq<Client>
    requires |clients| == |seen|
  {
    if clients == [] then []
    else
      var s := Serve(clients[0], seen[0]);
      (if s.close then [] else [s.client]) + Survivors(clients[1..], seen[1..])
  }

  function Posted(clients: seq<Client>, seen: seq<Seen>): seq<(nat, string)>
    requires |clients| == |seen|
  {
    if clients == [] then []
    else
      var s := Serve(clients[0], seen[0]);
      Posted(clients[1..], seen[1..]) + if s.line.Some? then [(s.client.id, s.line.value)] else []
  }

  function Closed(clients: seq<Client>, seen: seq<Seen>): seq<nat>
    requires |clients| == |seen|
  {
    if clients == [] then []
    else
      var s := Serve(clients[0], seen[0]);
      Closed(clients[1..], seen[1..]) + if s.close then [s.client.id] else []
  }

  // ---------------------------------------------------------------- request assembly

  /** The connection over a list of chunks, none of them failing; the requests it posts are collected. */
  function ReadAll(c: Client, chunks: seq<string>): (Served, seq<string>)
    decreases |chunks|
  {
    if chunks == [] then (Served(c, false, None), [])
    else
      var s := AfterRead(c, Bytes(chunks[0]));
      var line := if s.line.Some? then [s.line.value] else [];
      if s.close then (s, line)
      else
        var rest := ReadAll(s.client, chunks[1..]);
        (rest.0, line + rest.1)
  }

  /**
    The size limits of client and server agree: a newline-free line, however its bytes and its newline are
    split into chunks, becomes exactly one request with exactly that line if it has at most 16383
    characters, and otherwise closes the connection without a request.
   */
  lemma {:induction false} RequestAssembled(c: Client, chunks: seq<string>, line: string)
    requires !c.requested && '\n' !in line
    requires c.input + Flatten(chunks) == line + "\n" && chunks != []
    requires forall r <- chunks :: r != ""
    ensures ReadAll(c, chunks).1 == if |line| + 1 <= MAX_REQUEST then [line] else []
    ensures ReadAll(c, chunks).0.close <==> |line| + 1 > MAX_REQUEST
    ensures |line| + 1 <= MAX_REQUEST ==>
              ReadAll(c, chunks).0.client == c.(input := line + "\n", requested := true, waiting := true)
    decreases |chunks|
  {
    var d := c.input + chunks[0];
    var rest := Flatten(chunks[1..]);
    assert d + rest == line + "\n";
    assert forall i :: 0 <= i < |d| ==> d[i] == (line + "\n")[i];
    if chunks[1..] == [] {
      assert d == line + "\n";
      assert d[..|line|] == line;
      IndexOfCharUnique(d, '\n', |line|);
    } else {
      assert chunks[1] in chunks && chunks[1..][0] == chunks[1];
      assert |rest| >= 1;
      assert d == line[..|d|] && d[..|d|] == d;
      IndexOfCharUnique(d, '\n', |d|);
      assert forall r <- chunks[1..] :: r in chunks;
      RequestAssembled(c.(input := d), chunks[1..], line);
    }
  }

  // ---------------------------------------------------------------- whole connections

  /** A connection over a list of passes until it is closed, and the requests it posts. */
  function ServeAll(c: Client, passes: seq<Seen>): (Served, seq<string>)
    decreases |passes|
  {
    if passes == [] then (Served(c, false, None), [])
    else
      var s := Serve(c, passes[0]);
      var line := if s.line.Some? then [s.line.value] else [];
      if s.close then (s, line)
      else
        var rest := ServeAll(s.client, passes[1..]);
        (rest.0, line + rest.1)
  }

  /** A pass that finds the connection alive, with this chunk of a request to read. */
  predicate Asks(seen: Seen, chunk: string) {
    !seen.expired && !seen.broken && seen.readable && seen.read == Bytes(chunk) && seen.ready.None?
  }

  /** A connection without a request only reads. */
  lemma {:induction false} AsksAreReads(c: Client, passes: seq<Seen>, chunks: seq<string>)
    requires !c.requested && c.output == "" && |passes| == |chunks|
    requires forall i :: 0 <= i < |passes| ==> Asks(passes[i], chunks[i])
    ensures ServeAll(c, passes) == ReadAll(c, chunks)
    decreases |passes|
  {
    if passes != [] {
      assert Asks(passes[0], chunks[0]);
      var s := Serve(c, passes[0]);
      assert s == AfterRead(c, Bytes(chunks[0]));
      if !s.close {
        if s.line.Some? {
          RequestedReads(s.client, passes[1..], chunks[1..]);
        } else {
          AsksAreReads(s.client, passes[1..], chunks[1..]);
        }
      }
    }
  }

  /** Anything more closes it. */
  lemma RequestedReads(c: Client, passes: seq<Seen>, chunks: seq<string>)
    requires c.requested && c.output == "" && |passes| == |chunks|
    requires forall i :: 0 <= i < |passes| ==> Asks(passes[i], chunks[i])
    ensures ServeAll(c, passes) == ReadAll(c, chunks)
  {
    if passes != [] {
      assert Asks(passes[0], chunks[0]);
    }
  }

  /** A pass that finds the connection alive and its answer ready, with nothing to read and a working socket. */
  predicate Collects(seen: Seen, answer: string) {
    && !seen.expired && !seen.broken && !seen.readable && seen.ready == Some(answer) && !seen.write.WriteFailed?
  }

  /** The connection waits for its answer, or has collected it and not yet written it all. */
  ghost predicate Owed(c: Client, answer: string) {
    && c.requested && c.sent < |answer| && c.wire == answer[..c.sent]
    && if c.waiting then c.output == "" && c.sent == 0 else c.output == answer
  }

  function Taken(write: WriteOutcome): nat {
    match write case Took(n) => n case _ => 0
  }

  /** One pass: what the socket takes lengthens what it has, by just that many bytes, and all of it closes. */
  lemma AnswerStep(c: Client, answer: string, seen: Seen)
    requires Owed(c, answer) && Collects(seen, answer)
    ensures var s := Serve(c, seen); var taken := |c.wire| + Taken(seen.write);
            && s.client.wire == answer[..if taken < |answer| then taken else |answer|] && s.line.None?
            && (s.close <==> s.client.wire == answer)
            && (!s.close ==> Owed(s.client, answer))
  {
    var s := Serve(c, seen).client;
    assert s.sent > c.sent ==> answer[..c.sent] + answer[c.sent..s.sent] == answer[..s.sent];
    assert answer[..|answer|] == answer;
  }

  function TakenAll(passes: seq<Seen>): nat {
    if passes == [] then 0 else Taken(passes[0].write) + TakenAll(passes[1..])
  }

  /**
    Delivery: over any passes of a waiting connection whose answer is ready, the socket gets a prefix of the
    answer, as long as it was willing to take, and the connection closes exactly when it has taken all of it.
   */
  lemma {:induction false} AnswerDelivered(c: Client, answer: string, passes: seq<Seen>)
    requires Owed(c, answer)
    requires forall i :: 0 <= i < |passes| ==> Collects(passes[i], answer)
    ensures var (s, posted) := ServeAll(c, passes); var taken := |c.wire| + TakenAll(passes);
            && posted == [] && s.client.wire == answer[..if taken < |answer| then taken else |answer|]
            && (s.close <==> taken >= |answer|)
    decreases |passes|
  {
    if passes != [] {
      assert Collects(passes[0], answer);
      AnswerStep(c, answer, passes[0]);
      var s := Serve(c, passes[0]);
      assert |c.wire| == c.sent;
      if !s.close {
        AnswerDelivered(s.client, answer, passes[1..]);
      }
    }
  }

  /** What closes a connection that is not done: its deadline, its socket, or bytes it should not have sent. */
  lemma UnfinishedCloses(c: Client, answer: string, seen: Seen)
    requires Owed(c, answer) && (seen.ready.Some? ==> seen.ready == Some(answer))
    requires Taken(seen.write) < |answer| - c.sent
    ensures Serve(c, seen).close <==>
            || seen.expired || seen.broken
            || (seen.readable && (seen.read.ReadFailed? || seen.read.Bytes?))
            || (seen.write.WriteFailed? && (!c.waiting || seen.ready.Some?))
  {
  }
}
