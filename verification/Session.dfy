/**
  The session's request/response state, one critical section at a time.

  Each function is the effect of one section on the state guarded by the session mutex; the class methods
  are the sections themselves. A decoded frame carries two history labels the code never looks at: its
  arrival number and the number of the reader thread that decoded it.
 */
module Session {
  import opened Base

  const UNMATCHED_LIMIT := 32

  datatype Item = Item(frame: Frame, id: nat, epoch: nat)

  datatype PendingRequest = PendingRequest(opcode: byte, subtype: int, response: Option<Item>, hasAck: bool)

  datatype Guarded = Guarded(
    hasAck: bool,
    sequence: byte,
    pending: Option<PendingRequest>,
    unmatched: seq<Item>,
    lastSeen: Option<byte>)

  /** A negative subtype matches anything; otherwise it is truncated to a byte before comparing. */
  predicate Matches(payload: seq<byte>, opcode: byte, subtype: int) {
    && payload != [] && payload[0] == opcode
    && (subtype < 0 || (|payload| >= 2 && payload[1] == subtype % 256))
  }

  /** The first buffered frame that answers the request, or the queue's length. */
  function FirstMatch(queue: seq<Item>, opcode: byte, subtype: int): (i: nat)
    ensures i <= |queue|
    ensures i < |queue| ==> Matches(queue[i].frame.payload, opcode, subtype)
    ensures forall j :: 0 <= j < i ==> !Matches(queue[j].frame.payload, opcode, subtype)
  {
    if queue == [] || Matches(queue[0].frame.payload, opcode, subtype) then 0
    else 1 + FirstMatch(queue[1..], opcode, subtype)
  }

  predicate Awaits(g: Guarded, payload: seq<byte>) {
    && g.pending.Some? && g.pending.value.response.None?
    && Matches(payload, g.pending.value.opcode, g.pending.value.subtype)
  }

  function AckHandled(g: Guarded, sequence: byte): Guarded {
    g.(hasAck := true,
       sequence := if sequence <= 1 then sequence else g.sequence,
       pending := if g.pending.Some? then Some(g.pending.value.(hasAck := true)) else None)
  }

  predicate Duplicate(g: Guarded, sequence: byte) {
    g.lastSeen == Some(sequence)
  }

  /** A response fills the pending slot; anything else joins the queue, which drops its oldest entry. */
  function Delivered(g: Guarded, item: Item): Guarded {
    if Awaits(g, item.frame.payload) then g.(pending := Some(g.pending.value.(response := Some(item))))
    else
      var queue := g.unmatched + [item];
      g.(unmatched := if |queue| > UNMATCHED_LIMIT then queue[1..] else queue)
  }

  function RequestArmed(g: Guarded, opcode: byte, subtype: int): Guarded {
    var i := FirstMatch(g.unmatched, opcode, subtype);
    var request := PendingRequest(opcode, subtype, None, false);
    if i == |g.unmatched| then g.(hasAck := false, pending := Some(request))
    else g.(hasAck := false,
            pending := Some(request.(response := Some(g.unmatched[i]))),
            unmatched := g.unmatched[..i] + g.unmatched[i + 1..])
  }

  function Cleared(g: Guarded): Guarded {
    Guarded(false, g.sequence, None, [], None)
  }

  /** A payload answers the request for its own first two bytes, with or without the second. */
  lemma AnswersOwn(payload: seq<byte>)
    requires payload != []
    ensures Matches(payload, payload[0], -1)
    ensures |payload| >= 2 ==> Matches(payload, payload[0], payload[1])
    ensures forall subtype :: |payload| == 1 && subtype >= 0 ==> !Matches(payload, payload[0], subtype)
  {
  }

  /** And no other: requests with a subtype never compete for an answer. */
  lemma AnswersOne(payload: seq<byte>, opcode: byte, subtype: byte, opcode': byte, subtype': byte)
    requires Matches(payload, opcode, subtype) && Matches(payload, opcode', subtype')
    ensures opcode == opcode' && subtype == subtype'
  {
  }

  function DeliveredAll(g: Guarded, items: seq<Item>): Guarded {
    if items == [] then g else Delivered(DeliveredAll(g, items[..|items| - 1]), items[|items| - 1])
  }

  /** With no request waiting, the queue always holds the newest 32 of what came, in order. */
  lemma {:induction false} QueueKeepsNewest(g: Guarded, items: seq<Item>)
    requires g.pending.None? && |g.unmatched| <= 32
    ensures var all := g.unmatched + items;
            DeliveredAll(g, items) == g.(unmatched := all[if |all| > 32 then |all| - 32 else 0..])
    decreases |items|
  {
    var all := g.unmatched + items;
    if items == [] {
      assert all == g.unmatched && all[0..] == all;
    } else {
      var before := items[..|items| - 1];
      QueueKeepsNewest(g, before);
      assert all == g.unmatched + before + [items[|items| - 1]];
    }
  }

  /** What a waiting caller gets when it wakes up. */
  datatype Wake<T> = Done(value: T) | Failed(error: ErrorCode)

  class SonyProtocolSession {
    var running: bool
    var connected: bool
    var hasAck: bool
    var sequence: byte
    var pending: Option<PendingRequest>
    var unmatched: seq<Item>
    var lastSeen: Option<byte>

    ghost function View(): Guarded reads this {
      Guarded(hasAck, sequence, pending, unmatched, lastSeen)
    }

    constructor ()
      ensures View() == Guarded(false, 0, None, [], None) && !running && !connected
    {
      running, connected := false, false;
      hasAck, sequence, pending, unmatched, lastSeen := false, 0, None, [], None;
    }

    method HandleAck(frame: Frame)
      modifies this`hasAck, this`sequence, this`pending
      ensures View() == AckHandled(old(View()), frame.sequence)
    {
      hasAck := true;
      if frame.sequence <= 1 {
        sequence := frame.sequence;
      }
      if pending.Some? {
        pending := Some(pending.value.(hasAck := true));
      }
    }

    method CheckDuplicate(frame: Frame) returns (isDuplicate: bool)
      modifies this`lastSeen
      ensures isDuplicate == Duplicate(old(View()), frame.sequence)
      ensures View() == old(View()).(lastSeen := Some(frame.sequence))
    {
      isDuplicate := false;
      if lastSeen.Some? && lastSeen.value == frame.sequence {
        isDuplicate := true;
      } else {
        lastSeen := Some(frame.sequence);
      }
    }

    method DeliverData(item: Item) returns (matchedRequest: bool)
      modifies this`pending, this`unmatched
      ensures matchedRequest == Awaits(old(View()), item.frame.payload)
      ensures View() == Delivered(old(View()), item)
    {
      matchedRequest := false;
      var payload := item.frame.payload;
      if pending.Some? && pending.value.response.None? {
        if payload != [] && payload[0] == pending.value.opcode {
          if pending.value.subtype < 0 ||
             (|payload| >= 2 && payload[1] == pending.value.subtype % 256) {
            pending := Some(pending.value.(response := Some(item)));
            matchedRequest := true;
          }
        }
      }
      if !matchedRequest {
        unmatched := unmatched + [item];
        if |unmatched| > UNMATCHED_LIMIT {
          unmatched := unmatched[1..];
        }
      }
    }

    method ArmSend()
      modifies this`hasAck
      ensures View() == old(View()).(hasAck := false)
    {
      hasAck := false;
    }

    method ArmRequest(opcode: byte, subtype: int)
      modifies this`hasAck, this`pending, this`unmatched
      ensures View() == RequestArmed(old(View()), opcode, subtype)
    {
      hasAck := false;
      pending := Some(PendingRequest(opcode, subtype, None, false));
      var it := 0;
      while it < |unmatched|
        invariant 0 <= it <= |unmatched| && unmatched == old(unmatched) && !hasAck
        invariant pending == Some(PendingRequest(opcode, subtype, None, false))
        invariant it <= FirstMatch(unmatched, opcode, subtype)
      {
        var payload := unmatched[it].frame.payload;
        if payload != [] && payload[0] == opcode {
          if subtype < 0 || (|payload| >= 2 && payload[1] == subtype % 256) {
            pending := Some(pending.value.(response := Some(unmatched[it])));
            unmatched := unmatched[..it] + unmatched[it + 1..];
            break;
          }
        }
        it := it + 1;
      }
    }

    /** The end of a send: an acknowledgement is consumed, or the reason it did not come is reported. */
    method FinishSend() returns (r: Wake<()>)
      modifies this`hasAck
      ensures r.Done? <==> running && connected && old(hasAck)
      ensures r.Failed? ==> r.error == if running && connected then Timeout else Disconnected
      ensures View() == old(View()).(hasAck := old(hasAck) && r.Failed?)
    {
      if !connected || !running {
        return Failed(Disconnected);
      }
      if !hasAck {
        return Failed(Timeout);
      }
      hasAck := false;
      return Done(());
    }

    method FinishRequest() returns (r: Wake<Item>)
      modifies this`hasAck, this`pending
      ensures r.Done? <==> running && connected && old(pending).Some? && old(pending).value.response.Some?
      ensures r.Done? ==> Some(r.value) == old(pending).value.response
      ensures r.Failed? ==> r.error == if running && connected then Timeout else Disconnected
      ensures View() == old(View()).(hasAck := old(hasAck) && r.Failed?, pending := None)
    {
      if !connected || !running {
        pending := None;
        return Failed(Disconnected);
      }
      if pending.None? || pending.value.response.None? {
        pending := None;
        return Failed(Timeout);
      }
      hasAck := false;
      r := Done(pending.value.response.value);
      pending := None;
    }

    method ClearForStart()
      modifies this`lastSeen, this`unmatched, this`hasAck, this`pending
      ensures View() == Cleared(old(View()))
    {
      lastSeen := None;
      unmatched := [];
      hasAck := false;
      pending := None;
    }

    method ClearForDisconnect()
      modifies this`lastSeen, this`unmatched, this`hasAck, this`pending, this`sequence
      ensures View() == Cleared(old(View())).(sequence := 0)
    {
      lastSeen := None;
      unmatched := [];
      pending := None;
      hasAck := false;
      sequence := 0;
    }

    /** The three atomic accesses of nextSequenceNumber; other threads may run between them. */
    method LoadSequence() returns (cur: byte)
      ensures cur == sequence
    {
      cur := sequence;
    }

    method StoreLowBit(cur: byte)
      modifies this`sequence
      ensures View() == old(View()).(sequence := cur % 2)
    {
      sequence := cur % 2;
    }

    method FetchAdd() returns (number: byte)
      modifies this`sequence
      ensures number == old(sequence) && View() == old(View()).(sequence := (number + 1) % 256)
    {
      number := sequence;
      sequence := (sequence + 1) % 256;
    }
  }
}
