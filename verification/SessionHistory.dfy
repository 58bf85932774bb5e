/**
  Three habits of the session, made exact: a response may have been a notification first, a failed write
  leaves its request armed, and any acknowledgement serves any send.
 */
module SessionHistory {
  import opened Base
  import opened Session
  import opened SessionRuns

  // ---------------------------------------------------------------- where a response came from

  /** The frame has gone to the callbacks, or is on its way there. */
  predicate Notified(s: State, item: Item) {
    item in s.routed.dispatched || (s.reader.phase == Queued && s.reader.inbox != [] && item == s.reader.inbox[0])
  }

  /** The frame was taken from the queue by a request being armed, or delivered to a waiting one. */
  predicate FromSomewhere(s: State, item: Item) {
    item in s.notes.taken || item in s.routed.matched
  }

  ghost predicate Origins(s: State) {
    && (forall item <- s.notes.taken :: Notified(s, item))
    && (Answered(s.guarded) ==> FromSomewhere(s, s.guarded.pending.value.response.value))
    && (forall r <- s.given.returned :: FromSomewhere(s, r.item))
  }

  lemma OriginsReader(s: State, e: ReaderEvent)
    requires Origins(s) && ReaderMay(s, e)
    ensures Origins(ReaderStep(s, e))
  {
    var t := ReaderStep(s, e);
    assert t.notes.taken == s.notes.taken && t.given == s.given;
    assert forall item :: item in s.routed.matched ==> item in t.routed.matched;
    assert forall item :: Notified(s, item) ==> Notified(t, item);
  }

  lemma OriginsCaller(s: State, e: CallerEvent)
    requires Origins(s) && CallerMay(s, e)
    requires QueueDispatched(s.guarded.unmatched, s.routed.dispatched, s.reader)
    ensures Origins(CallerStep(s, e))
  {
    var t := CallerStep(s, e);
    assert t.reader == s.reader && t.routed == s.routed;
    if e.Arm? && s.sender.call.ask.Some? {
      var ask := s.sender.call.ask.value;
      var i := FirstMatch(s.guarded.unmatched, ask.0, ask.1);
      if i < |s.guarded.unmatched| {
        assert s.guarded.unmatched[i] in s.guarded.unmatched;
        assert t.notes.taken == s.notes.taken + [s.guarded.unmatched[i]];
      } else {
        assert t.notes.taken == s.notes.taken;
      }
    } else {
      assert t.notes.taken == s.notes.taken;
    }
  }

  lemma OriginsOther(s: State, e: LinkEvent)
    requires Origins(s) && OtherMay(s, e)
    ensures Origins(OtherStep(s, e))
  {
    var t := OtherStep(s, e);
    assert t.notes == s.notes && t.routed == s.routed && t.given == s.given;
    assert forall item :: Notified(s, item) ==> Notified(t, item);
  }

  lemma OriginsStep(s: State, e: Event)
    requires Origins(s) && Enabled(s, e)
    requires QueueDispatched(s.guarded.unmatched, s.routed.dispatched, s.reader)
    ensures Origins(Apply(s, e))
  {
    match e {
      case ByReader(r) => OriginsReader(s, r);
      case ByCaller(c) => OriginsCaller(s, c);
      case ByOther(l) => OriginsOther(s, l);
    }
  }

  // ---------------------------------------------------------------- the slot of a request

  /** A request is between its arming and its end. */
  predicate InRequest(sender: Sender) {
    (sender.Writing? || sender.Waiting?) && sender.call.ask.Some?
  }

  /** The slot is taken by the request in progress, or by the last one if its write failed, until it is cleared. */
  ghost predicate Slot(s: State) {
    && (s.guarded.pending.Some? <==>
          (InRequest(s.sender) || s.notes.leftover) && s.notes.armed == s.counts.clears)
    && (InRequest(s.sender) ==> !s.notes.leftover) && s.notes.armed <= s.counts.clears
  }

  lemma SlotStep(s: State, e: Event)
    requires Slot(s) && Enabled(s, e)
    ensures Slot(Apply(s, e))
  {
    match e {
      case ByReader(r) =>
        var t := ReaderStep(s, r);
        assert t.guarded.pending.Some? == s.guarded.pending.Some? && t.sender == s.sender;
        assert t.notes.leftover == s.notes.leftover && t.notes.armed == s.notes.armed;
        assert t.counts.clears == s.counts.clears;
      case ByCaller(c) => SlotCaller(s, c);
      case ByOther(l) =>
    }
  }

  lemma SlotCaller(s: State, e: CallerEvent)
    requires Slot(s) && CallerMay(s, e)
    ensures Slot(CallerStep(s, e))
  {
  }

  // ---------------------------------------------------------------- acknowledgement numbers

  predicate Drawn(sender: Sender) {
    (sender.Arming? || sender.Writing? || sender.Waiting?) && sender.call.data
  }

  ghost predicate Numbers(s: State) {
    && s.notes.drawn <= 1
    && (s.given.numbers != [] ==> s.given.numbers[|s.given.numbers| - 1].value == s.notes.drawn)
    && (Drawn(s.sender) ==> s.given.numbers != [])
    && ((s.sender.Writing? || s.sender.Waiting?) && s.guarded.hasAck && s.notes.lastAck <= 1 ==>
          s.guarded.sequence == s.notes.lastAck)
  }

  lemma NumbersStep(s: State, e: Event)
    requires Numbers(s) && Enabled(s, e) && OneBit(s.guarded.sequence, s.sender, s.given.numbers)
    ensures Numbers(Apply(s, e))
  {
    match e {
      case ByReader(r) =>
        var t := ReaderStep(s, r);
        assert t.sender == s.sender && t.given == s.given && t.notes.drawn == s.notes.drawn;
      case ByCaller(c) => NumbersCaller(s, c);
      case ByOther(l) =>
    }
  }

  lemma NumbersCaller(s: State, e: CallerEvent)
    requires Numbers(s) && CallerMay(s, e) && OneBit(s.guarded.sequence, s.sender, s.given.numbers)
    ensures Numbers(CallerStep(s, e))
  {
  }

  // ---------------------------------------------------------------- every run

  ghost predicate Recorded(s: State) {
    Sound(s) && Origins(s) && Slot(s) && Numbers(s)
  }

  lemma RecordedStep(s: State, e: Event)
    requires Recorded(s) && Enabled(s, e)
    ensures Recorded(Apply(s, e))
  {
    SoundStep(s, e);
    SlotStep(s, e);
    NumbersStep(s, e);
    OriginsStep(s, e);
  }

  lemma {:induction false} RecordedRuns(s: State, events: seq<Event>)
    requires Recorded(s) && Legal(s, events)
    ensures Recorded(Final(s, events))
    decreases |events|
  {
    if events != [] {
      RecordedStep(s, events[0]);
      RecordedRuns(Apply(s, events[0]), events[1..]);
    }
  }

  lemma {:induction false} ReachableIsRecorded(s: State)
    requires Reachable(s)
    ensures Recorded(s)
  {
    var events :| Legal(Initial(), events) && Final(Initial(), events) == s;
    ReachableIsSound(Initial()) by { assert Legal(Initial(), []) && Final(Initial(), []) == Initial(); }
    RecordedRuns(Initial(), events);
  }

  /**
    Every response was accepted from the link once; it had been or is being given to the callbacks exactly
    if the request took it out of the queue, and otherwise went straight to its request.
   */
  lemma {:induction false} ResponseOrigin(s: State, r: Return)
    requires Reachable(s) && r in s.given.returned
    ensures r.item in s.routed.accepted
    ensures Notified(s, r.item) <==> r.item in s.notes.taken
    ensures r.item in s.routed.matched <==> r.item !in s.notes.taken
  {
    ReachableIsRecorded(s);
    var all := multiset(s.routed.matched) + multiset(s.routed.dispatched) + InTransit(s.reader);
    assert r.item in all;
    assert r.item in multiset(s.routed.accepted);
    OrderedCounts(s.routed.accepted, r.item);
    assert all[r.item] == 1;
  }

  /** It happens: a notification waits in the queue until a request for it comes. */
  lemma NotifiedResponse() returns (s: State)
    ensures Reachable(s) && s.given.returned != []
    ensures s.given.returned[0].item in s.routed.dispatched && s.given.returned[0].item in s.notes.taken
  {
    s := Started();
    s := Received(s, Frame(DATA_MDR, 0, [0x23]));
    s := Announced(s);
    s := ReachableExtends(s, ByCaller(Begin(Call(false, Some((0x23, -1))))));
    s := ReachableExtends(s, ByCaller(Arm));
    s := ReachableExtends(s, ByCaller(WriteDone));
    s := ReachableExtends(s, ByCaller(RequestReturns));
  }

  lemma Announced(s: State) returns (t: State)
    requires Reachable(s) && Live(s) && s.sender.Free? && s.given.returned == []
    requires s.guarded == Guarded(false, 0, None, [], None)
    requires s.reader == Reader(Checking, [Item(Frame(DATA_MDR, 0, [0x23]), 0, 1)], Fresh, 1)
    ensures Reachable(t) && Live(t) && t.sender.Free? && t.given.returned == []
    ensures t.guarded.unmatched == [Item(Frame(DATA_MDR, 0, [0x23]), 0, 1)]
    ensures Item(Frame(DATA_MDR, 0, [0x23]), 0, 1) in t.routed.dispatched
  {
    t := ReachableExtends(s, ByReader(Acknowledge(false)));
    t := ReachableExtends(t, ByReader(CheckDuplicate));
    t := ReachableExtends(t, ByReader(Deliver));
    t := ReachableExtends(t, ByReader(Dispatch));
  }

  /**
    While no call is in progress, the slot is occupied exactly if the last request's write failed and nothing
    was cleared since it was armed.
   */
  lemma {:induction false} IdleSlot(s: State)
    requires Reachable(s) && s.sender.Free?
    ensures s.guarded.pending.Some? <==> s.notes.leftover && s.notes.armed == s.counts.clears
  {
    ReachableIsRecorded(s);
  }

  /** The frame went to a request's slot and has left it without being returned. */
  ghost predicate Lost(s: State, item: Item) {
    item in s.routed.matched && item.id !in Holdings(s.guarded, s.given.returned)
  }

  lemma LostReader(s: State, e: ReaderEvent, item: Item)
    requires Numbered(s.reader) && OneDestination(s.routed, s.reader) && Lost(s, item) && ReaderMay(s, e)
    ensures Lost(ReaderStep(s, e), item)
  {
    assert item in ReaderStep(s, e).routed.matched;
    if e.Deliver? {
      DeliverHoldings(s);
      assert item.id < s.reader.inbox[0].id;
    } else {
      ReaderHoldings(s, e);
    }
  }

  lemma LostCaller(s: State, e: CallerEvent, item: Item)
    requires Lost(s, item) && CallerMay(s, e)
    ensures Lost(CallerStep(s, e), item)
  {
    CallerHoldings(s, e);
    assert CallerStep(s, e).routed == s.routed;
  }

  lemma LostStep(s: State, e: Event, item: Item)
    requires Numbered(s.reader) && OneDestination(s.routed, s.reader) && Lost(s, item) && Enabled(s, e)
    ensures Lost(Apply(s, e), item)
  {
    match e {
      case ByReader(r) => LostReader(s, r, item);
      case ByCaller(c) => LostCaller(s, c, item);
      case ByOther(l) => assert OtherStep(s, l).routed == s.routed;
    }
  }

  /** Such a frame is never returned and never dispatched, whatever happens next. */
  lemma {:induction false} LostForGood(s: State, item: Item, events: seq<Event>)
    requires Reachable(s) && Lost(s, item) && Legal(s, events)
    ensures var t := Final(s, events);
            item !in t.routed.dispatched && forall r <- t.given.returned :: r.item != item
  {
    ReachableIsSound(s);
    LostRuns(s, item, events);
  }

  lemma {:induction false} LostRuns(s: State, item: Item, events: seq<Event>)
    requires Sound(s) && Lost(s, item) && Legal(s, events)
    ensures var t := Final(s, events);
            && Sound(t) && Lost(t, item) && item !in t.routed.dispatched
            && forall r <- t.given.returned :: r.item != item
    decreases |events|
  {
    if events != [] {
      LostStep(s, events[0], item);
      SoundStep(s, events[0]);
      LostRuns(Apply(s, events[0]), item, events[1..]);
    } else {
      LostMeans(s, item);
    }
  }

  lemma LostMeans(s: State, item: Item)
    requires Sound(s) && Lost(s, item)
    ensures item !in s.routed.dispatched && forall r <- s.given.returned :: r.item != item
  {
    var all := multiset(s.routed.matched) + multiset(s.routed.dispatched) + InTransit(s.reader);
    assert item in all;
    OrderedCounts(s.routed.accepted, item);
    assert all[item] == 1;
    forall i | 0 <= i < |s.given.returned|
      ensures s.given.returned[i].item != item
    {
      ReturnedMember(s.given.returned, i);
    }
  }

  /** The events that take a frame out of a request's slot without returning it. */
  predicate Drops(s: State, e: Event) {
    || (e == ByCaller(Arm) && s.sender.Arming? && s.sender.call.ask.Some?)
    || e == ByCaller(RequestThrows) || e == ByOther(ClearOnDisconnect) || e == ByOther(ClearOnStart)
  }

  /** The answer in the slot is in no other place it could be returned from. */
  ghost predicate OnlyInSlot(s: State, item: Item) {
    && Answered(s.guarded) && s.guarded.pending.value.response.value == item && item in s.routed.matched
    && item.id !in Ids(s.guarded.unmatched) && item.id !in ReturnedIds(s.given.returned)
  }

  lemma HeldNowhereElse(s: State)
    requires Sound(s) && Answered(s.guarded) && s.guarded.pending.value.response.value in s.routed.matched
    ensures OnlyInSlot(s, s.guarded.pending.value.response.value)
  {
    var id := s.guarded.pending.value.response.value.id;
    var held := Holdings(s.guarded, s.given.returned);
    assert id in held && held[id] == 1;
    assert held[id] == Ids(s.guarded.unmatched)[id] + 1 + ReturnedIds(s.given.returned)[id];
  }

  /** Whether a frame is lost, place by place. */
  lemma LostWhere(s: State, item: Item)
    requires item in s.routed.matched
    ensures Lost(s, item) <==>
            && item.id !in Ids(s.guarded.unmatched) && item.id !in PendingIds(s.guarded)
            && item.id !in ReturnedIds(s.given.returned)
  {
  }

  lemma DropsReader(s: State, e: ReaderEvent, item: Item)
    requires ReaderMay(s, e) && OnlyInSlot(s, item)
    ensures !Lost(ReaderStep(s, e), item)
  {
    var t := ReaderStep(s, e);
    assert item in t.routed.matched && PendingIds(t.guarded) == PendingIds(s.guarded);
    LostWhere(t, item);
  }

  lemma DropsOther(s: State, e: LinkEvent, item: Item)
    requires OtherMay(s, e) && OnlyInSlot(s, item)
    ensures Lost(OtherStep(s, e), item) <==> e.ClearOnDisconnect? || e.ClearOnStart?
  {
    var t := OtherStep(s, e);
    assert t.routed == s.routed && t.given == s.given;
    LostWhere(t, item);
  }

  lemma DropsArm(s: State, item: Item)
    requires CallerMay(s, Arm) && OnlyInSlot(s, item)
    ensures Lost(CallerStep(s, Arm), item) <==> s.sender.call.ask.Some?
  {
    var t := CallerStep(s, Arm);
    assert t.routed == s.routed && t.given == s.given;
    if s.sender.call.ask.Some? {
      ArmedWithout(s.guarded, s.sender.call.ask.value.0, s.sender.call.ask.value.1, item.id);
    }
    LostWhere(t, item);
  }

  lemma DropsEnd(s: State, e: CallerEvent, item: Item)
    requires CallerMay(s, e) && !e.Arm? && OnlyInSlot(s, item)
    ensures Lost(CallerStep(s, e), item) <==> e.RequestThrows?
  {
    var t := CallerStep(s, e);
    assert t.routed == s.routed && t.guarded.unmatched == s.guarded.unmatched;
    if e.RequestReturns? {
      assert t.given.returned[..|s.given.returned|] == s.given.returned;
      assert item.id in ReturnedIds(t.given.returned);
    } else {
      assert t.given.returned == s.given.returned;
    }
    LostWhere(t, item);
  }

  /**
    Exactly these lose an answer that was delivered to the slot: arming the next request over it, giving up
    on the one that waits, and a clear.
   */
  lemma {:induction false} LostExactly(s: State, e: Event)
    requires Reachable(s) && Enabled(s, e) && Answered(s.guarded)
    requires s.guarded.pending.value.response.value in s.routed.matched
    ensures Lost(Apply(s, e), s.guarded.pending.value.response.value) <==> Drops(s, e)
  {
    ReachableIsSound(s);
    HeldNowhereElse(s);
    DropsExactly(s, e, s.guarded.pending.value.response.value);
  }

  lemma DropsExactly(s: State, e: Event, item: Item)
    requires Enabled(s, e) && OnlyInSlot(s, item)
    ensures Lost(Apply(s, e), item) <==> Drops(s, e)
  {
    match e {
      case ByReader(r) => DropsReader(s, r, item);
      case ByCaller(c) =>
        if c.Arm? {
          DropsArm(s, item);
        } else {
          DropsEnd(s, c, item);
        }
      case ByOther(l) => DropsOther(s, l, item);
    }
  }

  lemma ArmedWithout(g: Guarded, opcode: byte, subtype: int, id: nat)
    requires id !in Ids(g.unmatched)
    ensures var h := RequestArmed(g, opcode, subtype); id !in Ids(h.unmatched) && id !in PendingIds(h)
  {
    var i := FirstMatch(g.unmatched, opcode, subtype);
    if i < |g.unmatched| {
      TakenIds(g.unmatched, i);
      assert g.unmatched[i].id in Ids(g.unmatched);
    }
  }

  /** It happens: a write times out, the answer still fills its slot, and the next request takes the slot over. */
  lemma LostResponse() returns (s: State, item: Item)
    ensures Reachable(s) && Lost(s, item)
  {
    s := FailedRequest();
    s := Swallowed(s);
    item := s.guarded.pending.value.response.value;
    s := ReachableExtends(s, ByCaller(Begin(Call(false, Some((0x23, -1))))));
    s := ReachableExtends(s, ByCaller(Arm));
  }

  lemma FailedRequest() returns (s: State)
    ensures Reachable(s) && s.running && s.sender.Free? && s.given.returned == [] && s.counts.epoch == 1
    ensures s.guarded == Guarded(false, 0, Some(PendingRequest(0x23, -1, None, false)), [], None)
    ensures s.reader == Reader(Checking, [], Fresh, 0) && s.routed.matched == []
  {
    s := Started();
    s := ReachableExtends(s, ByCaller(Begin(Call(false, Some((0x23, -1))))));
    s := ReachableExtends(s, ByCaller(Arm));
    s := ReachableExtends(s, ByCaller(WriteFails(false)));
  }

  lemma Received(s: State, f: Frame) returns (t: State)
    requires Reachable(s) && s.running && s.reader == Reader(Checking, [], Fresh, 0)
    ensures Reachable(t)
    ensures t == s.(reader := Reader(Checking, [Item(f, 0, s.counts.epoch)], Fresh, 1))
  {
    t := ReachableExtends(s, ByReader(Poll));
    t := ReachableExtends(t, ByReader(Take));
    t := ReachableExtends(t, ByReader(Decode([f])));
    assert Labelled([f], 0, s.counts.epoch) == [Item(f, 0, s.counts.epoch)];
  }

  lemma Swallowed(s: State) returns (t: State)
    requires Reachable(s) && s.running && s.sender.Free? && s.given.returned == [] && s.counts.epoch == 1
    requires s.guarded == Guarded(false, 0, Some(PendingRequest(0x23, -1, None, false)), [], None)
    requires s.reader == Reader(Checking, [], Fresh, 0) && s.routed.matched == []
    ensures Reachable(t) && t.sender.Free? && t.given.returned == [] && Answered(t.guarded)
    ensures t.guarded.unmatched == [] && t.routed.matched == [t.guarded.pending.value.response.value]
  {
    t := Received(s, Frame(DATA_MDR, 0, [0x23]));
    t := ReachableExtends(t, ByReader(Acknowledge(false)));
    t := ReachableExtends(t, ByReader(CheckDuplicate));
    t := ReachableExtends(t, ByReader(Deliver));
  }

  /**
    When a send returns, the last acknowledgement handled before carries the number that was sent exactly if
    that number is what the counter now holds and the acknowledgement was one the counter takes.
   */
  lemma {:induction false} AckNumbers(s: State)
    requires Reachable(s) && CallerMay(s, SendReturns)
    ensures var success := CallerStep(s, SendReturns).given.sends[|s.given.sends|];
            && (s.sender.call.data ==>
                  s.given.numbers != [] && success.sent == s.given.numbers[|s.given.numbers| - 1].value)
            && (success.acked == success.sent <==> success.acked <= 1 && s.guarded.sequence == success.sent)
  {
    ReachableIsRecorded(s);
  }

  /** No number is required: a send of number 0 can return on an acknowledgement of any number. */
  lemma AnyNumberServes(number: byte) returns (s: State)
    ensures Reachable(s) && s.given.sends != []
    ensures s.given.sends[0].sent == 0 && s.given.sends[0].acked == number
  {
    s := Started();
    s := Sent(s);
    s := Received(s, Frame(ACK, number, []));
    s := ReachableExtends(s, ByReader(HandleAck));
    s := ReachableExtends(s, ByCaller(SendReturns));
  }

  lemma Sent(s: State) returns (t: State)
    requires Reachable(s) && Live(s) && s.sender.Free? && s.guarded.sequence == 0 && s.given == Given([], [], [])
    ensures Reachable(t) && Live(t) && t.sender.Waiting? && t.sender.call == Call(true, None)
    ensures t.notes.drawn == 0 && t.given.sends == [] && t.reader == s.reader
  {
    t := ReachableExtends(s, ByCaller(Begin(Call(true, None))));
    t := ReachableExtends(t, ByCaller(Load));
    t := ReachableExtends(t, ByCaller(FetchAdd));
    t := ReachableExtends(t, ByCaller(Arm));
    t := ReachableExtends(t, ByCaller(WriteDone));
  }
}
