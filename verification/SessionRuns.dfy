/**
  Every interleaving of one sender (callers are serialised by the send mutex), the reader thread, and
  disconnect and start from any other thread. Each event is one critical section or one atomic access.
 */
module SessionRuns {
  import opened Base
  import opened Session

  // ---------------------------------------------------------------- state and events

  /** ask is the awaited opcode and subtype of sendAndAwaitResponse, None for a plain send. */
  datatype Call = Call(data: bool, ask: Option<(byte, int)>)

  /** mark is the number of acknowledgements handled when the call cleared the acknowledgement flag. */
  datatype Sender =
    | Free
    | Loading(call: Call)
    | Loaded(call: Call, cur: byte)
    | Adding(call: Call)
    | Arming(call: Call)
    | Writing(call: Call, mark: nat)
    | Waiting(call: Call, mark: nat)

  /** How far the reader is with the first frame of its inbox. */
  datatype Phase = Fresh | Acked | Accepted | Queued

  datatype Return = Return(item: Item, opcode: byte, subtype: int, epoch: nat)
  datatype Number = Number(value: byte, stores: nat)

  /** sent is the number drawn last, which for a data frame is its own; acked that of the last acknowledgement. */
  datatype Success = Success(mark: nat, ack: nat, sent: byte, acked: byte)

  /** Where the reader loop is: not running, at its test, inside receive, or with received bytes not yet decoded. */
  datatype Stage = Gone | Checking | Receiving | Holding

  /** The reader thread: its decoded but unfinished frames, and how many were ever decoded. */
  datatype Reader = Reader(stage: Stage, inbox: seq<Item>, phase: Phase, arrived: nat)

  /** Calls of start that passed the test at its beginning, and those that also cleared the session. */
  datatype Starts = Starts(tested: nat, cleared: nat)

  // History: counters and logs no code reads. An epoch is the life of one reader thread.
  datatype Counts = Counts(epoch: nat, clears: nat, acks: nat, stores: nat)

  /**
    armed is the number of clears when a request was last armed, leftover whether that request's write
    failed; taken is what requests took out of the queue.
   */
  datatype Notes = Notes(armed: nat, leftover: bool, drawn: byte, lastAck: byte, taken: seq<Item>)
  datatype Routed = Routed(accepted: seq<Item>, acceptedAt: seq<nat>, matched: seq<Item>, dispatched: seq<Item>)
  datatype Given = Given(numbers: seq<Number>, sends: seq<Success>, returned: seq<Return>)

  datatype State = State(
    guarded: Guarded,
    running: bool,
    connected: bool,
    reader: Reader,
    sender: Sender,
    starts: Starts,
    counts: Counts,
    routed: Routed,
    given: Given,
    notes: Notes)

  datatype ReaderEvent =
    | Poll
    | TimeOut
    | Take
    | Decode(frames: seq<Frame>)
    | Stop
    | HandleAck
    | SkipOther
    | Acknowledge(fatal: bool)
    | CheckDuplicate
    | Deliver
    | Dispatch

  datatype CallerEvent =
    | Begin(call: Call)
    | Load
    | Store
    | FetchAdd
    | Arm
    | WriteDone
    | WriteFails(fatal: bool)
    | SendReturns
    | SendThrows
    | RequestReturns
    | RequestThrows

  datatype LinkEvent =
    | StopRunning
    | LinkUp
    | LinkDown
    | ClearOnDisconnect
    | TestStart
    | ClearOnStart
    | Launch

  datatype Event = ByReader(r: ReaderEvent) | ByCaller(c: CallerEvent) | ByOther(l: LinkEvent)

  function Initial(): State {
    State(Guarded(false, 0, None, [], None), false, false, Reader(Gone, [], Fresh, 0), Free, Starts(0, 0),
          Counts(0, 0, 0, 0), Routed([], [], [], []), Given([], [], []), Notes(0, false, 0, 0, []))
  }

  function Labelled(frames: seq<Frame>, first: nat, epoch: nat): seq<Item> {
    seq(|frames|, i requires 0 <= i < |frames| => Item(frames[i], first + i, epoch))
  }

  predicate Live(s: State) {
    s.running && s.connected
  }

  predicate Answered(g: Guarded) {
    g.pending.Some? && g.pending.value.response.Some?
  }

  /** The values nextSequenceNumber folds back to one bit. */
  predicate Folds(cur: byte) {
    1 < cur < 254
  }

  predicate ReaderMay(s: State, e: ReaderEvent) {
    var r := s.reader;
    match e
    case Poll => r.stage == Checking && r.inbox == [] && s.running
    case TimeOut => r.stage == Receiving && r.inbox == []
    case Take => r.stage == Receiving && r.inbox == []
    case Decode(_) => r.stage == Holding && r.inbox == []
    case Stop => r.inbox == [] && (r.stage == Receiving || (r.stage == Checking && !s.running))
    case HandleAck => r.inbox != [] && r.phase == Fresh && r.inbox[0].frame.kind == ACK
    case SkipOther => r.inbox != [] && r.phase == Fresh && r.inbox[0].frame.kind !in {ACK, DATA_MDR}
    case Acknowledge(_) => r.inbox != [] && r.phase == Fresh && r.inbox[0].frame.kind == DATA_MDR
    case CheckDuplicate => r.inbox != [] && r.phase == Acked
    case Deliver => r.inbox != [] && r.phase == Accepted
    case Dispatch => r.inbox != [] && r.phase == Queued
  }

  predicate CallerMay(s: State, e: CallerEvent) {
    var c := s.sender;
    match e
    case Begin(_) => c.Free?
    case Load => c.Loading?
    case Store => c.Loaded? && Folds(c.cur)
    case FetchAdd => c.Adding? || (c.Loaded? && !Folds(c.cur))
    case Arm => c.Arming?
    case WriteDone => c.Writing?
    case WriteFails(_) => c.Writing?
    case SendReturns => c.Waiting? && c.call.ask.None? && Live(s) && s.guarded.hasAck
    case SendThrows => c.Waiting? && c.call.ask.None? && !(Live(s) && s.guarded.hasAck)
    case RequestReturns => c.Waiting? && c.call.ask.Some? && Live(s) && Answered(s.guarded)
    case RequestThrows => c.Waiting? && c.call.ask.Some? && !(Live(s) && Answered(s.guarded))
  }

  predicate OtherMay(s: State, e: LinkEvent) {
    match e
    case TestStart => s.connected && !s.running
    case ClearOnStart => s.starts.tested > 0
    case Launch => s.starts.cleared > 0 && s.reader.stage == Gone && s.reader.inbox == []
    case _ => true
  }

  predicate Enabled(s: State, e: Event) {
    match e
    case ByReader(r) => ReaderMay(s, r)
    case ByCaller(c) => CallerMay(s, c)
    case ByOther(l) => OtherMay(s, l)
  }

  /** The reader is done with the first frame of its inbox. */
  function Popped(r: Reader): Reader
    requires r.inbox != []
  {
    r.(inbox := r.inbox[1..], phase := Fresh)
  }

  function ReaderStep(s: State, e: ReaderEvent): State
    requires ReaderMay(s, e)
  {
    var r := s.reader;
    match e
    case Poll => s.(reader := r.(stage := Receiving))
    case TimeOut => s.(reader := r.(stage := Checking))
    case Take => s.(reader := r.(stage := Holding))
    case Decode(frames) =>
      s.(reader := Reader(Checking, Labelled(frames, r.arrived, s.counts.epoch), Fresh, r.arrived + |frames|))
    case Stop => s.(reader := r.(stage := Gone), running := false)
    case HandleAck =>
      var n := r.inbox[0].frame.sequence;
      s.(reader := Popped(r), guarded := AckHandled(s.guarded, n),
         counts := s.counts.(acks := s.counts.acks + 1, stores := s.counts.stores + if n <= 1 then 1 else 0),
         notes := s.notes.(lastAck := n))
    case SkipOther => s.(reader := Popped(r))
    case Acknowledge(fatal) => s.(reader := r.(phase := Acked), running := s.running && !fatal)
    case CheckDuplicate =>
      var n := r.inbox[0].frame.sequence;
      if Duplicate(s.guarded, n) then s.(reader := Popped(r))
      else s.(reader := r.(phase := Accepted), guarded := s.guarded.(lastSeen := Some(n)),
              routed := s.routed.(accepted := s.routed.accepted + [r.inbox[0]],
                                  acceptedAt := s.routed.acceptedAt + [s.counts.clears]))
    case Deliver =>
      var item := r.inbox[0];
      if Awaits(s.guarded, item.frame.payload)
      then s.(reader := Popped(r), guarded := Delivered(s.guarded, item),
              routed := s.routed.(matched := s.routed.matched + [item]))
      else s.(reader := r.(phase := Queued), guarded := Delivered(s.guarded, item))
    case Dispatch =>
      s.(reader := Popped(r), routed := s.routed.(dispatched := s.routed.dispatched + [r.inbox[0]]))
  }

  /** The buffered frame a request takes when it is armed, if there is one. */
  function FirstMatching(queue: seq<Item>, opcode: byte, subtype: int): seq<Item> {
    var i := FirstMatch(queue, opcode, subtype);
    if i < |queue| then [queue[i]] else []
  }

  function CallerStep(s: State, e: CallerEvent): State
    requires CallerMay(s, e)
  {
    var g := s.guarded;
    var c := s.sender;
    match e
    case Begin(call) => s.(sender := if call.data then Loading(call) else Arming(call))
    case Load => s.(sender := Loaded(c.call, g.sequence))
    case Store => s.(sender := Adding(c.call), guarded := g.(sequence := c.cur % 2))
    case FetchAdd =>
      s.(sender := Arming(c.call), guarded := g.(sequence := (g.sequence + 1) % 256),
         given := s.given.(numbers := s.given.numbers + [Number(g.sequence, s.counts.stores)]),
         notes := s.notes.(drawn := g.sequence))
    case Arm =>
      var t := s.(sender := Writing(c.call, s.counts.acks));
      (match c.call.ask
       case None => t.(guarded := g.(hasAck := false))
       case Some(ask) =>
         t.(guarded := RequestArmed(g, ask.0, ask.1),
            notes := s.notes.(armed := s.counts.clears, leftover := false,
                              taken := s.notes.taken + FirstMatching(g.unmatched, ask.0, ask.1))))
    case WriteDone => s.(sender := Waiting(c.call, c.mark))
    case WriteFails(fatal) =>
      s.(sender := Free, running := s.running && !fatal,
         notes := if c.call.ask.Some? then s.notes.(leftover := true) else s.notes)
    case SendReturns =>
      s.(sender := Free, guarded := g.(hasAck := false),
         given := s.given.(sends := s.given.sends + [Success(c.mark, s.counts.acks, s.notes.drawn, s.notes.lastAck)]))
    case SendThrows => s.(sender := Free)
    case RequestReturns =>
      var result := Return(g.pending.value.response.value, c.call.ask.value.0, c.call.ask.value.1, s.counts.epoch);
      s.(sender := Free, guarded := g.(hasAck := false, pending := None),
         given := s.given.(returned := s.given.returned + [result]))
    case RequestThrows => s.(sender := Free, guarded := g.(pending := None))
  }

  function OtherStep(s: State, e: LinkEvent): State
    requires OtherMay(s, e)
  {
    match e
    case StopRunning => s.(running := false)
    case LinkUp => s.(connected := true)
    case LinkDown => s.(connected := false)
    case ClearOnDisconnect =>
      s.(guarded := Cleared(s.guarded).(sequence := 0),
         counts := s.counts.(clears := s.counts.clears + 1, stores := s.counts.stores + 1))
    case TestStart => s.(starts := s.starts.(tested := s.starts.tested + 1))
    case ClearOnStart =>
      s.(guarded := Cleared(s.guarded), counts := s.counts.(clears := s.counts.clears + 1),
         starts := Starts(s.starts.tested - 1, s.starts.cleared + 1))
    case Launch =>
      s.(running := true, reader := s.reader.(stage := Checking),
         starts := s.starts.(cleared := s.starts.cleared - 1),
         counts := s.counts.(epoch := s.counts.epoch + 1))
  }

  function Apply(s: State, e: Event): State
    requires Enabled(s, e)
  {
    match e
    case ByReader(r) => ReaderStep(s, r)
    case ByCaller(c) => CallerStep(s, c)
    case ByOther(l) => OtherStep(s, l)
  }

  ghost predicate Legal(s: State, events: seq<Event>)
    decreases |events|
  {
    events != [] ==> Enabled(s, events[0]) && Legal(Apply(s, events[0]), events[1..])
  }

  ghost function Final(s: State, events: seq<Event>): State
    requires Legal(s, events)
    decreases |events|
  {
    if events == [] then s else Final(Apply(s, events[0]), events[1..])
  }

  /** The state of some run from the start. */
  ghost predicate Reachable(s: State) {
    exists events :: Legal(Initial(), events) && Final(Initial(), events) == s
  }

  // ---------------------------------------------------------------- response linearity

  function Ids(items: seq<Item>): multiset<nat> {
    if items == [] then multiset{} else multiset{items[0].id} + Ids(items[1..])
  }

  function ReturnedIds(returned: seq<Return>): multiset<nat> {
    if returned == [] then multiset{}
    else ReturnedIds(returned[..|returned| - 1]) + multiset{returned[|returned| - 1].item.id}
  }

  function PendingIds(g: Guarded): multiset<nat> {
    if Answered(g) then multiset{g.pending.value.response.value.id} else multiset{}
  }

  /** Every frame a request could still be given, or has been given. */
  function Holdings(g: Guarded, returned: seq<Return>): multiset<nat> {
    Ids(g.unmatched) + PendingIds(g) + ReturnedIds(returned)
  }

  /** The inbox holds the most recent arrivals, in order. */
  ghost predicate Numbered(r: Reader) {
    && |r.inbox| <= r.arrived
    && (forall i :: 0 <= i < |r.inbox| ==> r.inbox[i].id == r.arrived - |r.inbox| + i)
    && (r.inbox == [] ==> r.phase == Fresh)
  }

  /** Frames below this number have been put where they go. */
  function Placed(r: Reader): int {
    r.arrived - |r.inbox| + if r.phase == Queued then 1 else 0
  }

  /** No frame is held twice, and none is held before it has been placed. */
  ghost predicate HeldOnce(held: multiset<nat>, placed: int) {
    forall id <- held :: held[id] == 1 && id < placed
  }

  lemma {:induction false} IdsConcat(a: seq<Item>, b: seq<Item>)
    ensures Ids(a + b) == Ids(a) + Ids(b)
  {
    if a == [] {
      assert a + b == b;
    } else {
      assert (a + b)[1..] == a[1..] + b;
      IdsConcat(a[1..], b);
    }
  }

  lemma QueuedIds(queue: seq<Item>, item: Item)
    ensures Ids(queue + [item]) == Ids(queue) + multiset{item.id}
    ensures Ids((queue + [item])[1..]) <= Ids(queue) + multiset{item.id}
  {
    IdsConcat(queue, [item]);
    assert [item][1..] == [];
  }

  lemma SumGrows(a: multiset<nat>, b: multiset<nat>, a': multiset<nat>, b': multiset<nat>,
                 c: multiset<nat>, x: multiset<nat>)
    requires (a' == a && b' == b + x) || (a' <= a + x && b' == b)
    ensures a' + b' + c <= a + b + c + x
  {
  }

  lemma DeliveredHoldings(g: Guarded, item: Item, returned: seq<Return>)
    ensures Holdings(Delivered(g, item), returned) <= Holdings(g, returned) + multiset{item.id}
  {
    var h := Delivered(g, item);
    if Awaits(g, item.frame.payload) {
      assert PendingIds(h) == PendingIds(g) + multiset{item.id};
    } else {
      QueuedIds(g.unmatched, item);
      assert PendingIds(h) == PendingIds(g);
    }
    SumGrows(Ids(g.unmatched), PendingIds(g), Ids(h.unmatched), PendingIds(h),
             ReturnedIds(returned), multiset{item.id});
  }

  lemma IdsHead(item: Item, rest: seq<Item>)
    ensures Ids([item] + rest) == Ids(rest) + multiset{item.id}
  {
    assert ([item] + rest)[1..] == rest;
  }

  lemma TakenIds(queue: seq<Item>, i: nat)
    requires i < |queue|
    ensures Ids(queue) == Ids(queue[..i] + queue[i + 1..]) + multiset{queue[i].id}
  {
    var before, item, after := queue[..i], queue[i], queue[i + 1..];
    assert queue == before + ([item] + after);
    IdsConcat(before, [item] + after);
    IdsConcat(before, after);
    IdsHead(item, after);
  }

  lemma ArmedHoldings(g: Guarded, opcode: byte, subtype: int, returned: seq<Return>)
    ensures Holdings(RequestArmed(g, opcode, subtype), returned) <= Holdings(g, returned)
  {
    var i := FirstMatch(g.unmatched, opcode, subtype);
    var h := RequestArmed(g, opcode, subtype);
    if i < |g.unmatched| {
      TakenIds(g.unmatched, i);
      assert PendingIds(h) == multiset{g.unmatched[i].id};
    } else {
      assert PendingIds(h) == multiset{};
    }
    assert Ids(h.unmatched) + PendingIds(h) <= Ids(g.unmatched) + PendingIds(g);
  }

  lemma NumberedStep(s: State, e: ReaderEvent)
    requires ReaderMay(s, e) && Numbered(s.reader)
    ensures var t := ReaderStep(s, e).reader;
            && Numbered(t) && Placed(s.reader) <= Placed(t)
            && (e.Deliver? ==> s.reader.inbox[0].id == Placed(s.reader) < Placed(t))
  {
  }

  lemma HeldOnceGrows(held: multiset<nat>, held': multiset<nat>, id: nat, placed: int)
    requires HeldOnce(held, id) && id < placed && held' <= held + multiset{id}
    ensures HeldOnce(held', placed)
  {
  }

  lemma HeldOnceShrinks(held: multiset<nat>, held': multiset<nat>, placed: int, placed': int)
    requires HeldOnce(held, placed) && placed <= placed' && held' <= held
    ensures HeldOnce(held', placed')
  {
  }

  lemma ReaderHoldings(s: State, e: ReaderEvent)
    requires ReaderMay(s, e) && !e.Deliver?
    ensures var t := ReaderStep(s, e); Holdings(t.guarded, t.given.returned) == Holdings(s.guarded, s.given.returned)
  {
    var t := ReaderStep(s, e);
    assert t.guarded.unmatched == s.guarded.unmatched && t.given == s.given;
    assert PendingIds(t.guarded) == PendingIds(s.guarded);
  }

  lemma DeliverHoldings(s: State)
    requires ReaderMay(s, Deliver)
    ensures var t := ReaderStep(s, Deliver);
            Holdings(t.guarded, t.given.returned) <=
            Holdings(s.guarded, s.given.returned) + multiset{s.reader.inbox[0].id}
  {
    DeliveredHoldings(s.guarded, s.reader.inbox[0], s.given.returned);
  }

  ghost predicate Linear(s: State) {
    Numbered(s.reader) && HeldOnce(Holdings(s.guarded, s.given.returned), Placed(s.reader))
  }

  lemma LinearReader(s: State, e: ReaderEvent)
    requires Linear(s) && ReaderMay(s, e)
    ensures Linear(ReaderStep(s, e))
  {
    var t := ReaderStep(s, e);
    var before, after := Holdings(s.guarded, s.given.returned), Holdings(t.guarded, t.given.returned);
    NumberedStep(s, e);
    if e.Deliver? {
      DeliverHoldings(s);
      HeldOnceGrows(before, after, s.reader.inbox[0].id, Placed(t.reader));
    } else {
      ReaderHoldings(s, e);
      HeldOnceShrinks(before, after, Placed(s.reader), Placed(t.reader));
    }
  }

  lemma LinearCaller(s: State, e: CallerEvent)
    requires Linear(s) && CallerMay(s, e)
    ensures Linear(CallerStep(s, e))
  {
    var t := CallerStep(s, e);
    CallerHoldings(s, e);
    HeldOnceShrinks(Holdings(s.guarded, s.given.returned), Holdings(t.guarded, t.given.returned),
                    Placed(s.reader), Placed(t.reader));
  }

  lemma LinearOther(s: State, e: LinkEvent)
    requires Linear(s) && OtherMay(s, e)
    ensures Linear(OtherStep(s, e))
  {
    var t := OtherStep(s, e);
    assert t.given == s.given && t.reader.inbox == s.reader.inbox && t.reader.phase == s.reader.phase;
    assert t.reader.arrived == s.reader.arrived;
    HeldOnceShrinks(Holdings(s.guarded, s.given.returned), Holdings(t.guarded, t.given.returned),
                    Placed(s.reader), Placed(t.reader));
  }

  lemma LinearStep(s: State, e: Event)
    requires Linear(s) && Enabled(s, e)
    ensures Linear(Apply(s, e))
  {
    match e {
      case ByReader(r) => LinearReader(s, r);
      case ByCaller(c) => LinearCaller(s, c);
      case ByOther(l) => LinearOther(s, l);
    }
  }

  lemma CallerHoldings(s: State, e: CallerEvent)
    requires CallerMay(s, e)
    ensures var t := CallerStep(s, e);
            t.reader == s.reader && Holdings(t.guarded, t.given.returned) <= Holdings(s.guarded, s.given.returned)
  {
    match e {
      case Arm =>
        match s.sender.call.ask {
          case None =>
          case Some(ask) => ArmedHoldings(s.guarded, ask.0, ask.1, s.given.returned);
        }
      case RequestReturns =>
        var t := CallerStep(s, e);
        assert t.given.returned[..|t.given.returned| - 1] == s.given.returned;
      case _ =>
        var t := CallerStep(s, e);
        assert t.given.returned == s.given.returned && t.guarded.unmatched == s.guarded.unmatched;
        assert PendingIds(t.guarded) <= PendingIds(s.guarded);
    }
  }

  /** A buffered answer is an answer to the request that waits for it. */
  ghost predicate AnswersMatch(g: Guarded, sender: Sender, returned: seq<Return>) {
    && (Answered(g) ==>
          Matches(g.pending.value.response.value.frame.payload, g.pending.value.opcode, g.pending.value.subtype))
    && ((sender.Writing? || sender.Waiting?) && sender.call.ask.Some? && g.pending.Some? ==>
          sender.call.ask.value == (g.pending.value.opcode, g.pending.value.subtype))
    && (forall r <- returned :: Matches(r.item.frame.payload, r.opcode, r.subtype))
  }

  lemma AnswersMatchReader(s: State, e: ReaderEvent)
    requires AnswersMatch(s.guarded, s.sender, s.given.returned) && ReaderMay(s, e)
    ensures var t := ReaderStep(s, e); AnswersMatch(t.guarded, t.sender, t.given.returned)
  {
  }

  lemma AnswersMatchCaller(s: State, e: CallerEvent)
    requires AnswersMatch(s.guarded, s.sender, s.given.returned) && CallerMay(s, e)
    ensures var t := CallerStep(s, e); AnswersMatch(t.guarded, t.sender, t.given.returned)
  {
  }

  lemma AnswersMatchStep(s: State, e: Event)
    requires AnswersMatch(s.guarded, s.sender, s.given.returned) && Enabled(s, e)
    ensures var t := Apply(s, e); AnswersMatch(t.guarded, t.sender, t.given.returned)
  {
    match e {
      case ByReader(r) => AnswersMatchReader(s, r);
      case ByCaller(c) => AnswersMatchCaller(s, c);
      case ByOther(l) =>
    }
  }

  // ---------------------------------------------------------------- one destination for every frame

  ghost predicate Ordered(items: seq<Item>) {
    forall i, j :: 0 <= i < j < |items| ==> items[i].id < items[j].id
  }

  /** The frame between the duplicate check and its destination, if any. */
  function InTransit(r: Reader): multiset<Item> {
    if r.inbox != [] && (r.phase == Accepted || r.phase == Queued) then multiset{r.inbox[0]} else multiset{}
  }

  ghost predicate Before(items: seq<Item>, limit: int) {
    forall item <- items :: item.id < limit
  }

  /** Accepted data frames went to the pending slot or to the callbacks, each to exactly one of them. */
  ghost predicate OneDestination(routed: Routed, r: Reader) {
    && Ordered(routed.accepted) && Ordered(routed.matched) && Ordered(routed.dispatched)
    && Before(routed.accepted, r.arrived - |r.inbox| + |InTransit(r)|)
    && Before(routed.matched, r.arrived - |r.inbox|)
    && Before(routed.dispatched, r.arrived - |r.inbox|)
    && multiset(routed.accepted) == multiset(routed.matched) + multiset(routed.dispatched) + InTransit(r)
  }

  lemma OrderedAppend(items: seq<Item>, item: Item, limit: int)
    requires Ordered(items) && Before(items, item.id) && item.id < limit
    ensures Ordered(items + [item]) && Before(items + [item], limit)
  {
  }

  lemma BeforeWeakens(items: seq<Item>, limit: int, limit': int)
    requires Before(items, limit) && limit <= limit'
    ensures Before(items, limit')
  {
  }

  lemma BagAppend(items: seq<Item>, item: Item)
    ensures multiset(items + [item]) == multiset(items) + multiset{item}
  {
  }

  lemma AcceptKeepsDestination(routed: Routed, r: Reader, clears: nat)
    requires Numbered(r) && r.inbox != [] && r.phase == Acked && OneDestination(routed, r)
    ensures OneDestination(routed.(accepted := routed.accepted + [r.inbox[0]],
                                   acceptedAt := routed.acceptedAt + [clears]), r.(phase := Accepted))
  {
    var item, limit := r.inbox[0], r.arrived - |r.inbox|;
    OrderedAppend(routed.accepted, item, limit + 1);
    BagAppend(routed.accepted, item);
  }

  lemma MatchKeepsDestination(routed: Routed, r: Reader)
    requires Numbered(r) && r.inbox != [] && r.phase == Accepted && OneDestination(routed, r)
    ensures OneDestination(routed.(matched := routed.matched + [r.inbox[0]]), Popped(r))
    ensures OneDestination(routed, r.(phase := Queued))
  {
    var item, limit := r.inbox[0], r.arrived - |r.inbox|;
    OrderedAppend(routed.matched, item, limit + 1);
    BeforeWeakens(routed.dispatched, limit, limit + 1);
    BagAppend(routed.matched, item);
  }

  lemma DispatchKeepsDestination(s: State)
    requires Numbered(s.reader) && OneDestination(s.routed, s.reader) && ReaderMay(s, Dispatch)
    ensures var t := ReaderStep(s, Dispatch); OneDestination(t.routed, t.reader)
  {
    var item, limit := s.reader.inbox[0], s.reader.arrived - |s.reader.inbox|;
    OrderedAppend(s.routed.dispatched, item, limit + 1);
    BeforeWeakens(s.routed.matched, limit, limit + 1);
  }

  lemma PopKeepsDestination(routed: Routed, r: Reader)
    requires r.inbox != [] && InTransit(r) == multiset{} && OneDestination(routed, r)
    ensures OneDestination(routed, Popped(r))
  {
    var limit := r.arrived - |r.inbox|;
    BeforeWeakens(routed.accepted, limit, limit + 1);
    BeforeWeakens(routed.matched, limit, limit + 1);
    BeforeWeakens(routed.dispatched, limit, limit + 1);
  }

  lemma CheckKeepsDestination(s: State)
    requires Numbered(s.reader) && OneDestination(s.routed, s.reader) && ReaderMay(s, CheckDuplicate)
    ensures var t := ReaderStep(s, CheckDuplicate); OneDestination(t.routed, t.reader)
  {
    if Duplicate(s.guarded, s.reader.inbox[0].frame.sequence) {
      PopKeepsDestination(s.routed, s.reader);
    } else {
      AcceptKeepsDestination(s.routed, s.reader, s.counts.clears);
    }
  }

  lemma DeliverKeepsDestination(s: State)
    requires Numbered(s.reader) && OneDestination(s.routed, s.reader) && ReaderMay(s, Deliver)
    ensures var t := ReaderStep(s, Deliver); OneDestination(t.routed, t.reader)
  {
    MatchKeepsDestination(s.routed, s.reader);
  }

  lemma OneDestinationStep(s: State, e: ReaderEvent)
    requires Numbered(s.reader) && OneDestination(s.routed, s.reader) && ReaderMay(s, e)
    ensures var t := ReaderStep(s, e); OneDestination(t.routed, t.reader)
  {
    match e {
      case CheckDuplicate => CheckKeepsDestination(s);
      case Deliver => DeliverKeepsDestination(s);
      case Dispatch => DispatchKeepsDestination(s);
      case HandleAck => PopKeepsDestination(s.routed, s.reader);
      case SkipOther => PopKeepsDestination(s.routed, s.reader);
      case _ =>
    }
  }

  /** The queue is an ordered part of what was dispatched; its newest entry may be about to be. */
  ghost predicate QueueDispatched(queue: seq<Item>, dispatched: seq<Item>, r: Reader) {
    && Ordered(queue) && Before(queue, Placed(r)) && |queue| <= UNMATCHED_LIMIT
    && forall item <- queue :: item in dispatched || (r.phase == Queued && r.inbox != [] && item == r.inbox[0])
  }

  lemma DropOldest(queue: seq<Item>, limit: int)
    requires Ordered(queue) && Before(queue, limit) && queue != []
    ensures Ordered(queue[1..]) && Before(queue[1..], limit)
  {
  }

  lemma PushKeepsQueue(queue: seq<Item>, dispatched: seq<Item>, r: Reader)
    requires Numbered(r) && r.inbox != [] && r.phase == Accepted && QueueDispatched(queue, dispatched, r)
    ensures var pushed := queue + [r.inbox[0]];
            QueueDispatched(if |pushed| > UNMATCHED_LIMIT then pushed[1..] else pushed, dispatched, r.(phase := Queued))
  {
    var item := r.inbox[0];
    OrderedAppend(queue, item, item.id + 1);
    DropOldest(queue + [item], item.id + 1);
  }

  lemma DeliverKeepsQueue(s: State)
    requires Numbered(s.reader) && ReaderMay(s, Deliver)
    requires QueueDispatched(s.guarded.unmatched, s.routed.dispatched, s.reader)
    ensures var t := ReaderStep(s, Deliver); QueueDispatched(t.guarded.unmatched, t.routed.dispatched, t.reader)
  {
    if Awaits(s.guarded, s.reader.inbox[0].frame.payload) {
      BeforeWeakens(s.guarded.unmatched, Placed(s.reader), Placed(s.reader) + 1);
    } else {
      PushKeepsQueue(s.guarded.unmatched, s.routed.dispatched, s.reader);
    }
  }

  lemma DispatchKeepsQueue(s: State)
    requires Numbered(s.reader) && ReaderMay(s, Dispatch)
    requires QueueDispatched(s.guarded.unmatched, s.routed.dispatched, s.reader)
    ensures var t := ReaderStep(s, Dispatch); QueueDispatched(t.guarded.unmatched, t.routed.dispatched, t.reader)
  {
  }

  lemma QueueReader(s: State, e: ReaderEvent)
    requires Numbered(s.reader) && ReaderMay(s, e)
    requires QueueDispatched(s.guarded.unmatched, s.routed.dispatched, s.reader)
    ensures var t := ReaderStep(s, e); QueueDispatched(t.guarded.unmatched, t.routed.dispatched, t.reader)
  {
    match e {
      case Deliver => DeliverKeepsQueue(s);
      case Dispatch => DispatchKeepsQueue(s);
      case _ =>
        NumberedStep(s, e);
        BeforeWeakens(s.guarded.unmatched, Placed(s.reader), Placed(ReaderStep(s, e).reader));
    }
  }

  lemma QueueCaller(s: State, e: CallerEvent)
    requires CallerMay(s, e) && QueueDispatched(s.guarded.unmatched, s.routed.dispatched, s.reader)
    ensures var t := CallerStep(s, e);
            && t.reader == s.reader && t.routed == s.routed
            && QueueDispatched(t.guarded.unmatched, t.routed.dispatched, t.reader)
  {
  }

  /** Duplicate suppression: between two clears, consecutive accepted frames differ in sequence number. */
  ghost predicate NoRepeats(routed: Routed, lastSeen: Option<byte>, clears: nat) {
    && |routed.acceptedAt| == |routed.accepted|
    && (forall i :: 0 <= i < |routed.acceptedAt| ==> routed.acceptedAt[i] <= clears)
    && (forall i :: 0 < i < |routed.accepted| && routed.acceptedAt[i - 1] == routed.acceptedAt[i] ==>
          routed.accepted[i - 1].frame.sequence != routed.accepted[i].frame.sequence)
    && (routed.accepted != [] && routed.acceptedAt[|routed.accepted| - 1] == clears ==>
          lastSeen == Some(routed.accepted[|routed.accepted| - 1].frame.sequence))
  }

  lemma NoRepeatsAppend(routed: Routed, lastSeen: Option<byte>, clears: nat, item: Item)
    requires NoRepeats(routed, lastSeen, clears) && lastSeen != Some(item.frame.sequence)
    ensures NoRepeats(routed.(accepted := routed.accepted + [item], acceptedAt := routed.acceptedAt + [clears]),
                      Some(item.frame.sequence), clears)
  {
  }

  lemma NoRepeatsStep(s: State, e: Event)
    requires NoRepeats(s.routed, s.guarded.lastSeen, s.counts.clears) && Enabled(s, e)
    ensures var t := Apply(s, e); NoRepeats(t.routed, t.guarded.lastSeen, t.counts.clears)
  {
    match e {
      case ByReader(CheckDuplicate) =>
        if !Duplicate(s.guarded, s.reader.inbox[0].frame.sequence) {
          NoRepeatsAppend(s.routed, s.guarded.lastSeen, s.counts.clears, s.reader.inbox[0]);
        }
      case ByReader(r) => NoRepeatsReader(s, r);
      case ByCaller(c) => NoRepeatsCaller(s, c);
      case ByOther(l) =>
    }
  }

  lemma NoRepeatsReader(s: State, e: ReaderEvent)
    requires NoRepeats(s.routed, s.guarded.lastSeen, s.counts.clears) && ReaderMay(s, e) && !e.CheckDuplicate?
    ensures var t := ReaderStep(s, e); NoRepeats(t.routed, t.guarded.lastSeen, t.counts.clears)
  {
    var t := ReaderStep(s, e);
    assert t.routed.accepted == s.routed.accepted && t.routed.acceptedAt == s.routed.acceptedAt;
  }

  lemma NoRepeatsCaller(s: State, e: CallerEvent)
    requires CallerMay(s, e)
    ensures var t := CallerStep(s, e);
            t.routed == s.routed && t.guarded.lastSeen == s.guarded.lastSeen && t.counts == s.counts
  {
  }

  // ---------------------------------------------------------------- acknowledgements

  /** Each success consumed an acknowledgement handled after its own mark, and no earlier success's. */
  ghost predicate Justified(sends: seq<Success>, acks: nat) {
    && (forall i :: 0 <= i < |sends| ==> sends[i].mark < sends[i].ack <= acks)
    && (forall i :: 0 < i < |sends| ==> sends[i - 1].ack <= sends[i].mark)
  }

  ghost predicate AcksJustify(sends: seq<Success>, sender: Sender, hasAck: bool, acks: nat) {
    && Justified(sends, acks)
    && (sender.Writing? || sender.Waiting? ==>
          && sender.mark <= acks && (hasAck ==> sender.mark < acks)
          && (sends != [] ==> sends[|sends| - 1].ack <= sender.mark))
  }

  lemma JustifiedAppend(sends: seq<Success>, success: Success, acks: nat)
    requires Justified(sends, acks) && success.mark < success.ack <= acks
    requires sends != [] ==> sends[|sends| - 1].ack <= success.mark
    ensures Justified(sends + [success], acks)
  {
  }

  lemma AcksCaller(s: State, e: CallerEvent)
    requires CallerMay(s, e) && AcksJustify(s.given.sends, s.sender, s.guarded.hasAck, s.counts.acks)
    ensures var t := CallerStep(s, e); AcksJustify(t.given.sends, t.sender, t.guarded.hasAck, t.counts.acks)
  {
    match e {
      case SendReturns => JustifiedAppend(s.given.sends, CallerStep(s, e).given.sends[|s.given.sends|], s.counts.acks);
      case _ => assert CallerStep(s, e).given.sends == s.given.sends;
    }
  }

  lemma AcksReader(s: State, e: ReaderEvent)
    requires ReaderMay(s, e) && AcksJustify(s.given.sends, s.sender, s.guarded.hasAck, s.counts.acks)
    ensures var t := ReaderStep(s, e); AcksJustify(t.given.sends, t.sender, t.guarded.hasAck, t.counts.acks)
  {
    var t := ReaderStep(s, e);
    assert t.given == s.given && t.sender == s.sender;
    assert s.counts.acks <= t.counts.acks && (t.guarded.hasAck ==> s.guarded.hasAck || s.counts.acks < t.counts.acks);
  }

  lemma AcksOther(s: State, e: LinkEvent)
    requires OtherMay(s, e) && AcksJustify(s.given.sends, s.sender, s.guarded.hasAck, s.counts.acks)
    ensures var t := OtherStep(s, e); AcksJustify(t.given.sends, t.sender, t.guarded.hasAck, t.counts.acks)
  {
    var t := OtherStep(s, e);
    assert t.given == s.given && t.sender == s.sender && t.counts.acks == s.counts.acks;
    assert t.guarded.hasAck ==> s.guarded.hasAck;
  }

  lemma AcksJustifyStep(s: State, e: Event)
    requires AcksJustify(s.given.sends, s.sender, s.guarded.hasAck, s.counts.acks) && Enabled(s, e)
    ensures var t := Apply(s, e); AcksJustify(t.given.sends, t.sender, t.guarded.hasAck, t.counts.acks)
  {
    match e {
      case ByReader(r) => AcksReader(s, r);
      case ByCaller(c) => AcksCaller(s, c);
      case ByOther(l) => AcksOther(s, l);
    }
  }

  lemma {:induction false} AcksIncrease(sends: seq<Success>, acks: nat, last: nat)
    requires Justified(sends, acks) && last < |sends|
    ensures last < sends[last].ack
    ensures forall i :: 0 <= i < last ==> sends[i].ack < sends[last].ack
  {
    if last > 0 {
      AcksIncrease(sends, acks, last - 1);
    }
  }

  /** Successes have pairwise distinct acknowledgements, so there are never more of them. */
  lemma SuccessesAreBounded(sends: seq<Success>, acks: nat)
    requires Justified(sends, acks)
    ensures |sends| <= acks
    ensures forall i, j :: 0 <= i < j < |sends| ==> sends[i].ack < sends[j].ack
  {
    forall last | 0 <= last < |sends|
      ensures last < sends[last].ack && forall i :: 0 <= i < last ==> sends[i].ack < sends[last].ack
    {
      AcksIncrease(sends, acks, last);
    }
    assert sends != [] ==> |sends| - 1 < sends[|sends| - 1].ack;
  }

  // ---------------------------------------------------------------- sequence numbers

  ghost predicate OneBit(sequence: byte, sender: Sender, numbers: seq<Number>) {
    && sequence <= 2
    && (sender.Loaded? ==> sender.cur <= 2 && (sender.cur <= 1 ==> sequence <= 1))
    && (sender.Adding? ==> sequence <= 1)
    && (forall n <- numbers :: n.value <= 1)
  }

  /** Two consecutive numbers alternate when no acknowledgement store and no reset came between them. */
  ghost predicate Alternating(numbers: seq<Number>) {
    forall i :: 0 < i < |numbers| && numbers[i - 1].stores == numbers[i].stores ==>
      numbers[i].value == 1 - numbers[i - 1].value
  }

  ghost predicate Alternates(sequence: byte, sender: Sender, numbers: seq<Number>, stores: nat) {
    && OneBit(sequence, sender, numbers) && Alternating(numbers)
    && (forall n <- numbers :: n.stores <= stores)
    && (numbers != [] && numbers[|numbers| - 1].stores == stores ==>
          var next := numbers[|numbers| - 1].value + 1;
          && sequence == (if sender.Adding? then next % 2 else next)
          && (sender.Loaded? ==> sender.cur == next))
  }

  lemma AlternatingAppend(numbers: seq<Number>, number: Number)
    requires Alternating(numbers)
    requires numbers != [] && numbers[|numbers| - 1].stores == number.stores ==>
               number.value == 1 - numbers[|numbers| - 1].value
    ensures Alternating(numbers + [number])
  {
  }

  lemma AlternatesFetchAdd(s: State)
    requires Alternates(s.guarded.sequence, s.sender, s.given.numbers, s.counts.stores) && CallerMay(s, FetchAdd)
    ensures var t := CallerStep(s, FetchAdd);
            Alternates(t.guarded.sequence, t.sender, t.given.numbers, t.counts.stores)
  {
    var number := Number(s.guarded.sequence, s.counts.stores);
    var t := CallerStep(s, FetchAdd);
    AlternatingAppend(s.given.numbers, number);
    assert t.given.numbers == s.given.numbers + [number] && t.sender.Arming?;
    assert number.value <= 1 && t.guarded.sequence == number.value + 1;
  }

  lemma AlternatesCaller(s: State, e: CallerEvent)
    requires Alternates(s.guarded.sequence, s.sender, s.given.numbers, s.counts.stores) && CallerMay(s, e)
    ensures var t := CallerStep(s, e);
            Alternates(t.guarded.sequence, t.sender, t.given.numbers, t.counts.stores)
  {
    if e.FetchAdd? {
      AlternatesFetchAdd(s);
    } else {
      assert CallerStep(s, e).given.numbers == s.given.numbers;
    }
  }

  lemma AlternatesReader(s: State, e: ReaderEvent)
    requires Alternates(s.guarded.sequence, s.sender, s.given.numbers, s.counts.stores) && ReaderMay(s, e)
    ensures var t := ReaderStep(s, e);
            Alternates(t.guarded.sequence, t.sender, t.given.numbers, t.counts.stores)
  {
    var t := ReaderStep(s, e);
    assert t.given == s.given && t.sender == s.sender;
  }

  lemma AlternatesOther(s: State, e: LinkEvent)
    requires Alternates(s.guarded.sequence, s.sender, s.given.numbers, s.counts.stores) && OtherMay(s, e)
    ensures var t := OtherStep(s, e);
            Alternates(t.guarded.sequence, t.sender, t.given.numbers, t.counts.stores)
  {
    var t := OtherStep(s, e);
    assert t.given == s.given && t.sender == s.sender;
    assert e.ClearOnDisconnect? || (t.guarded.sequence == s.guarded.sequence && t.counts.stores == s.counts.stores);
  }

  lemma AlternatesStep(s: State, e: Event)
    requires Alternates(s.guarded.sequence, s.sender, s.given.numbers, s.counts.stores) && Enabled(s, e)
    ensures var t := Apply(s, e);
            Alternates(t.guarded.sequence, t.sender, t.given.numbers, t.counts.stores)
  {
    match e {
      case ByReader(r) => AlternatesReader(s, r);
      case ByCaller(c) => AlternatesCaller(s, c);
      case ByOther(l) => AlternatesOther(s, l);
    }
  }

  // ---------------------------------------------------------------- every run

  ghost predicate Sound(s: State) {
    && Linear(s)
    && AnswersMatch(s.guarded, s.sender, s.given.returned)
    && OneDestination(s.routed, s.reader)
    && QueueDispatched(s.guarded.unmatched, s.routed.dispatched, s.reader)
    && NoRepeats(s.routed, s.guarded.lastSeen, s.counts.clears)
    && AcksJustify(s.given.sends, s.sender, s.guarded.hasAck, s.counts.acks)
    && Alternates(s.guarded.sequence, s.sender, s.given.numbers, s.counts.stores)
  }

  lemma RoutingStep(s: State, e: Event)
    requires Numbered(s.reader) && Enabled(s, e)
    requires OneDestination(s.routed, s.reader)
    requires QueueDispatched(s.guarded.unmatched, s.routed.dispatched, s.reader)
    ensures var t := Apply(s, e);
            && OneDestination(t.routed, t.reader)
            && QueueDispatched(t.guarded.unmatched, t.routed.dispatched, t.reader)
  {
    match e {
      case ByReader(r) =>
        OneDestinationStep(s, r);
        QueueReader(s, r);
      case ByCaller(c) => QueueCaller(s, c);
      case ByOther(l) => RoutingOther(s, l);
    }
  }

  lemma RoutingOther(s: State, e: LinkEvent)
    requires Numbered(s.reader) && OtherMay(s, e) && OneDestination(s.routed, s.reader)
    requires QueueDispatched(s.guarded.unmatched, s.routed.dispatched, s.reader)
    ensures var t := OtherStep(s, e);
            && OneDestination(t.routed, t.reader)
            && QueueDispatched(t.guarded.unmatched, t.routed.dispatched, t.reader)
  {
    assert OtherStep(s, e).routed == s.routed;
  }

  lemma SoundStep(s: State, e: Event)
    requires Sound(s) && Enabled(s, e)
    ensures Sound(Apply(s, e))
  {
    LinearStep(s, e);
    AnswersMatchStep(s, e);
    RoutingStep(s, e);
    NoRepeatsStep(s, e);
    AcksJustifyStep(s, e);
    AlternatesStep(s, e);
  }

  lemma {:induction false} SoundRuns(s: State, events: seq<Event>)
    requires Sound(s) && Legal(s, events)
    ensures Sound(Final(s, events))
    decreases |events|
  {
    if events != [] {
      SoundStep(s, events[0]);
      SoundRuns(Apply(s, events[0]), events[1..]);
    }
  }

  lemma ReachableIsSound(s: State)
    requires Reachable(s)
    ensures Sound(s)
  {
    var events :| Legal(Initial(), events) && Final(Initial(), events) == s;
    SoundRuns(Initial(), events);
  }

  lemma {:induction false} ReturnedMember(returned: seq<Return>, i: nat)
    requires i < |returned|
    ensures returned[i].item.id in ReturnedIds(returned)
    decreases |returned|
  {
    if i < |returned| - 1 {
      ReturnedMember(returned[..|returned| - 1], i);
    }
  }

  lemma {:induction false} ReturnedOnce(returned: seq<Return>, i: nat, j: nat)
    requires i < j < |returned| && forall id <- ReturnedIds(returned) :: ReturnedIds(returned)[id] == 1
    ensures returned[i].item.id != returned[j].item.id
    decreases |returned|
  {
    var before := returned[..|returned| - 1];
    var last := returned[|returned| - 1].item.id;
    assert ReturnedIds(returned) == ReturnedIds(before) + multiset{last};
    ReturnedMember(before, i);
    if j < |returned| - 1 {
      forall id <- ReturnedIds(before) ensures ReturnedIds(before)[id] == 1 {
        assert id in ReturnedIds(returned);
      }
      ReturnedOnce(before, i, j);
    } else {
      assert last in ReturnedIds(returned);
    }
  }

  /**
    Response linearity: in every reachable state each returned frame answers the request it was returned
    to, and no frame was returned to two requests.
   */
  lemma ResponseLinearity(s: State)
    requires Reachable(s)
    ensures forall r <- s.given.returned :: var payload := r.item.frame.payload;
              && payload != [] && payload[0] == r.opcode
              && (r.subtype >= 0 ==> |payload| >= 2 && payload[1] == r.subtype % 256)
    ensures forall i, j :: 0 <= i < j < |s.given.returned| ==>
              s.given.returned[i].item.id != s.given.returned[j].item.id
  {
    ReachableIsSound(s);
    forall id <- ReturnedIds(s.given.returned) ensures ReturnedIds(s.given.returned)[id] == 1 {
      assert id in Holdings(s.guarded, s.given.returned);
    }
    forall i, j | 0 <= i < j < |s.given.returned|
      ensures s.given.returned[i].item.id != s.given.returned[j].item.id
    {
      ReturnedOnce(s.given.returned, i, j);
    }
  }

  lemma {:induction false} LegalExtends(s: State, events: seq<Event>, e: Event)
    requires Legal(s, events) && Enabled(Final(s, events), e)
    ensures Legal(s, events + [e]) && Final(s, events + [e]) == Apply(Final(s, events), e)
    decreases |events|
  {
    if events == [] {
      assert [] + [e] == [e];
    } else {
      assert (events + [e])[1..] == events[1..] + [e];
      LegalExtends(Apply(s, events[0]), events[1..], e);
    }
  }

  lemma ReachableExtends(s: State, e: Event) returns (t: State)
    requires Reachable(s) && Enabled(s, e)
    ensures Reachable(t) && t == Apply(s, e)
  {
    var events :| Legal(Initial(), events) && Final(Initial(), events) == s;
    LegalExtends(Initial(), events, e);
    t := Apply(s, e);
  }

  /** A session that has just started. */
  lemma Started() returns (s: State)
    ensures Reachable(s) && Live(s) && s.sender.Free? && s.given == Given([], [], []) && s.counts.epoch == 1
    ensures s.guarded == Guarded(false, 0, None, [], None)
    ensures s.reader == Reader(Checking, [], Fresh, 0) && s.routed.matched == [] && s.starts == Starts(0, 0)
  {
    s := Initial();
    assert Legal(s, []) && Final(s, []) == s;
    s := ReachableExtends(s, ByOther(LinkUp));
    s := ReachableExtends(s, ByOther(TestStart));
    s := ReachableExtends(s, ByOther(ClearOnStart));
    s := ReachableExtends(s, ByOther(Launch));
  }

  lemma {:induction false} OrderedCounts(items: seq<Item>, item: Item)
    requires Ordered(items) && item in items
    ensures multiset(items)[item] == 1
  {
    var rest := items[1..];
    assert items == [items[0]] + rest;
    if item == items[0] {
      assert item !in rest;
    } else {
      OrderedCounts(rest, item);
    }
  }

  lemma SplitOnce(routed: Routed, r: Reader)
    requires OneDestination(routed, r)
    ensures forall item <- routed.accepted :: item !in InTransit(r) ==>
              (item in routed.matched <==> item !in routed.dispatched)
    ensures forall item <- routed.matched + routed.dispatched :: item in routed.accepted
  {
    forall item <- routed.accepted
      ensures item !in InTransit(r) ==> (item in routed.matched <==> item !in routed.dispatched)
    {
      OrderedCounts(routed.accepted, item);
      assert multiset(routed.accepted)[item] ==
             multiset(routed.matched)[item] + multiset(routed.dispatched)[item] + InTransit(r)[item];
    }
    forall item <- routed.matched + routed.dispatched ensures item in routed.accepted {
      assert item in multiset(routed.matched) + multiset(routed.dispatched);
      assert item in multiset(routed.accepted);
    }
  }

  /**
    Frame routing: every data frame that is not a duplicate goes to the pending slot or to the callbacks,
    never both; the queue is an ordered part of what was dispatched, of at most 32 entries; consecutive
    accepted frames of one session differ in sequence number.
   */
  lemma FrameRouting(s: State)
    requires Reachable(s)
    ensures forall item <- s.routed.accepted :: item !in InTransit(s.reader) ==>
              (item in s.routed.matched <==> item !in s.routed.dispatched)
    ensures forall item <- s.routed.matched + s.routed.dispatched :: item in s.routed.accepted
    ensures Ordered(s.routed.accepted) && Ordered(s.routed.matched) && Ordered(s.routed.dispatched)
    ensures QueueDispatched(s.guarded.unmatched, s.routed.dispatched, s.reader)
    ensures NoRepeats(s.routed, s.guarded.lastSeen, s.counts.clears)
  {
    ReachableIsSound(s);
    SplitOnce(s.routed, s.reader);
  }

  /** Acknowledgement accounting: every successful send has its own acknowledgement, handled after its mark. */
  lemma AckAccounting(s: State)
    requires Reachable(s)
    ensures |s.given.sends| <= s.counts.acks
    ensures forall send <- s.given.sends :: send.mark < send.ack <= s.counts.acks
    ensures forall i, j :: 0 <= i < j < |s.given.sends| ==> s.given.sends[i].ack < s.given.sends[j].ack
  {
    ReachableIsSound(s);
    SuccessesAreBounded(s.given.sends, s.counts.acks);
  }

  /** After a disconnect has cleared, the next data frame of a call that begins undisturbed carries 0. */
  lemma DisconnectRestartsNumbers(s: State)
    requires s.sender.Free?
    ensures var t := OtherStep(s, ClearOnDisconnect);
            var loaded := CallerStep(CallerStep(t, Begin(Call(true, None))), Load);
            CallerMay(loaded, FetchAdd) && CallerStep(loaded, FetchAdd).notes.drawn == 0
  {
  }

  /** Data frames are numbered 0 or 1, alternating unless an acknowledgement or a reset intervened. */
  lemma OneBitSequence(s: State)
    requires Reachable(s)
    ensures s.guarded.sequence <= 2
    ensures forall n <- s.given.numbers :: n.value <= 1
    ensures Alternating(s.given.numbers)
  {
    ReachableIsSound(s);
  }
}
