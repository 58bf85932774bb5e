/**
  When a frame of an earlier reader can be returned as a response: exactly when a start clears the session
  while the previous reader, or another start, can still bring such a frame in.
 */
module SessionStarts {
  import opened Base
  import opened Session
  import opened SessionRuns

  /** A frame that can answer a request. */
  predicate Handable(item: Item) {
    item.frame.kind == DATA_MDR && item.frame.payload != []
  }

  /** Whether one of the frames, after this last sequence number, passes the duplicate check and can answer. */
  predicate Passes(items: seq<Item>, lastSeen: Option<byte>) {
    if items == [] then false
    else
      var f := items[0].frame;
      if f.kind != DATA_MDR || lastSeen == Some(f.sequence) then Passes(items[1..], lastSeen)
      else f.payload != [] || Passes(items[1..], Some(f.sequence))
  }

  /** Whether the reader, as far as it has got with its first frame, will put one where a request can find it. */
  predicate HandsOut(r: Reader, lastSeen: Option<byte>) {
    if r.inbox == [] then false
    else match r.phase
      case Queued => Passes(r.inbox[1..], lastSeen)
      case Accepted => r.inbox[0].frame.payload != [] || Passes(r.inbox[1..], lastSeen)
      case _ => Passes(r.inbox, lastSeen)
  }

  /** The same after a clear, which forgets the last sequence number. */
  predicate InHands(r: Reader) {
    HandsOut(r, None)
  }

  /** The reader may still decode bytes: it has some, waits for some, or will wait for some. */
  predicate MayDecode(s: State) {
    s.reader.stage == Receiving || s.reader.stage == Holding || (s.reader.stage == Checking && s.running)
  }

  /** What a start must not find when it clears: a reader with something to hand out, or another start under way. */
  predicate Exposed(s: State) {
    MayDecode(s) || InHands(s.reader) || s.starts.cleared > 0
  }

  const CLEAR := ByOther(ClearOnStart)
  const LATE_CLEAR := ByOther(ClearOnDisconnect)

  // ---------------------------------------------------------------- continuations

  ghost predicate WithoutClear(events: seq<Event>) {
    forall e <- events :: e != CLEAR && e != LATE_CLEAR
  }

  /** The second state follows from the first without a start or a disconnect clearing the session. */
  ghost predicate Leads(s: State, t: State) {
    exists events :: WithoutClear(events) && Legal(s, events) && Final(s, events) == t
  }

  ghost predicate HasStale(returned: seq<Return>, from: nat) {
    exists i :: from <= i < |returned| && returned[i].item.epoch < returned[i].epoch
  }

  /** Some continuation returns a frame that an earlier reader decoded. */
  ghost predicate StaleAfter(s: State) {
    exists t :: Leads(s, t) && HasStale(t.given.returned, |s.given.returned|)
  }

  lemma {:induction false} LegalConcat(s: State, a: seq<Event>, b: seq<Event>)
    requires Legal(s, a) && Legal(Final(s, a), b)
    ensures Legal(s, a + b) && Final(s, a + b) == Final(Final(s, a), b)
    decreases |a|
  {
    if a == [] {
      assert a + b == b;
    } else {
      assert (a + b)[1..] == a[1..] + b;
      LegalConcat(Apply(s, a[0]), a[1..], b);
    }
  }

  lemma LeadsTransitive(s: State, t: State, u: State)
    requires Leads(s, t) && Leads(t, u)
    ensures Leads(s, u)
  {
    var a :| WithoutClear(a) && Legal(s, a) && Final(s, a) == t;
    var b :| WithoutClear(b) && Legal(t, b) && Final(t, b) == u;
    LegalConcat(s, a, b);
    assert WithoutClear(a + b);
  }

  lemma LeadsItself(s: State)
    ensures Leads(s, s)
  {
    assert WithoutClear([]) && Legal(s, []) && Final(s, []) == s;
  }

  // ---------------------------------------------------------------- every reachable state

  /** The facts about readers that hold in every reachable state. */
  ghost predicate Tidy(s: State) {
    && (s.running ==> s.reader.stage != Gone)
    && (s.reader.inbox != [] ==> s.reader.stage == Checking)
    && (s.reader.inbox == [] ==> s.reader.phase == Fresh)
    && (s.reader.phase != Fresh ==> s.reader.inbox[0].frame.kind == DATA_MDR)
    && (forall item <- s.reader.inbox :: item.epoch == s.counts.epoch)
  }

  lemma TidyReader(s: State, e: ReaderEvent)
    requires Tidy(s) && ReaderMay(s, e)
    ensures Tidy(ReaderStep(s, e))
  {
  }

  lemma TidyStep(s: State, e: Event)
    requires Tidy(s) && Enabled(s, e)
    ensures Tidy(Apply(s, e))
  {
    match e {
      case ByReader(r) => TidyReader(s, r);
      case ByCaller(c) =>
        var t := CallerStep(s, c);
        assert t.reader == s.reader && t.counts == s.counts && (t.running ==> s.running);
      case ByOther(l) =>
    }
  }

  lemma {:induction false} TidyRuns(s: State, events: seq<Event>)
    requires Tidy(s) && Legal(s, events)
    ensures Tidy(Final(s, events))
    decreases |events|
  {
    if events != [] {
      TidyStep(s, events[0]);
      TidyRuns(Apply(s, events[0]), events[1..]);
    }
  }

  lemma ReachableIsTidy(s: State)
    requires Reachable(s)
    ensures Tidy(s)
  {
    var events :| Legal(Initial(), events) && Final(Initial(), events) == s;
    TidyRuns(Initial(), events);
  }

  // ---------------------------------------------------------------- the condition suffices

  /** Nothing a request could be given is older than the current reader, and no start is about to change that. */
  ghost predicate Clean(s: State) {
    && (forall item <- s.guarded.unmatched :: item.frame.payload == [] || item.epoch == s.counts.epoch)
    && (Answered(s.guarded) ==> s.guarded.pending.value.response.value.epoch == s.counts.epoch)
    && (s.starts.cleared > 0 ==> Quiet(s))
  }

  /** No answer can be found in the queue or the slot. */
  ghost predicate Blank(g: Guarded) {
    !Answered(g) && forall item <- g.unmatched :: item.frame.payload == []
  }

  /** Between the clear and the launch of a start that was alone. */
  ghost predicate Quiet(s: State) {
    s.starts.cleared == 1 && !MayDecode(s) && !HandsOut(s.reader, s.guarded.lastSeen) && Blank(s.guarded)
  }

  /**
    The condition on a run: no start clears while the session is exposed, and no disconnect does between the
    clear and the launch of a start while the reader has something to hand out.
   */
  predicate Careful(s: State, e: Event) {
    && (e == CLEAR ==> !Exposed(s))
    && (e == LATE_CLEAR && s.starts.cleared > 0 ==> !InHands(s.reader))
  }

  /** The reader's steps with a frame do not change whether it will hand one out, unless they hand it out. */
  lemma HandsOutStep(s: State, e: ReaderEvent)
    requires Tidy(s) && ReaderMay(s, e) && s.reader.inbox != []
    ensures var t := ReaderStep(s, e);
            HandsOut(s.reader, s.guarded.lastSeen) <==>
            (e.Deliver? && s.reader.inbox[0].frame.payload != []) || HandsOut(t.reader, t.guarded.lastSeen)
  {
    var t := ReaderStep(s, e);
    var head, rest := s.reader.inbox[0], s.reader.inbox[1..];
    assert t.reader.inbox == s.reader.inbox || t.reader == Popped(s.reader);
    AfterPop(s.reader, t.guarded.lastSeen);
    assert s.reader.phase == Fresh || s.reader.phase == Acked ==>
        HandsOut(s.reader, s.guarded.lastSeen) == Passes([head] + rest, s.guarded.lastSeen) by {
      assert s.reader.inbox == [head] + rest;
    }
  }

  lemma AfterPop(r: Reader, lastSeen: Option<byte>)
    requires r.inbox != []
    ensures HandsOut(Popped(r), lastSeen) == Passes(r.inbox[1..], lastSeen)
  {
  }

  lemma CleanDeliver(s: State)
    requires Tidy(s) && Clean(s) && ReaderMay(s, Deliver)
    ensures Clean(ReaderStep(s, Deliver))
  {
    var item := s.reader.inbox[0];
    assert item in s.reader.inbox;
    var t := ReaderStep(s, Deliver);
    assert forall other <- t.guarded.unmatched :: other in s.guarded.unmatched || other == item;
    HandsOutStep(s, Deliver);
  }

  lemma CleanReader(s: State, e: ReaderEvent)
    requires Tidy(s) && Clean(s) && ReaderMay(s, e)
    ensures Clean(ReaderStep(s, e))
  {
    if e.Deliver? {
      CleanDeliver(s);
    } else {
      var t := ReaderStep(s, e);
      assert t.guarded.unmatched == s.guarded.unmatched && Answered(t.guarded) == Answered(s.guarded);
      if s.reader.inbox != [] {
        HandsOutStep(s, e);
      }
    }
  }

  lemma CleanCaller(s: State, e: CallerEvent)
    requires Clean(s) && CallerMay(s, e)
    ensures Clean(CallerStep(s, e))
    ensures e.RequestReturns? ==>
              var r := CallerStep(s, e).given.returned[|s.given.returned|]; r.item.epoch == r.epoch
  {
    var t := CallerStep(s, e);
    assert t.reader == s.reader && t.counts == s.counts && t.starts == s.starts && (t.running ==> s.running);
    assert forall item <- t.guarded.unmatched :: item in s.guarded.unmatched;
    if e.Arm? && s.sender.call.ask.Some? {
      var ask := s.sender.call.ask.value;
      var i := FirstMatch(s.guarded.unmatched, ask.0, ask.1);
      assert i < |s.guarded.unmatched| ==> s.guarded.unmatched[i] in s.guarded.unmatched;
    } else {
      assert Answered(t.guarded) ==> t.guarded.pending == s.guarded.pending;
    }
  }

  lemma CleanOther(s: State, e: LinkEvent)
    requires Tidy(s) && Clean(s) && OtherMay(s, e) && Careful(s, ByOther(e))
    ensures Clean(OtherStep(s, e)) && OtherStep(s, e).given == s.given
  {
  }

  lemma CleanStep(s: State, e: Event)
    requires Tidy(s) && Clean(s) && Enabled(s, e) && Careful(s, e)
    ensures Clean(Apply(s, e))
    ensures var t := Apply(s, e);
            |s.given.returned| <= |t.given.returned| && ReturnedCurrent(t.given.returned, |s.given.returned|)
            && forall i :: 0 <= i < |s.given.returned| ==> t.given.returned[i] == s.given.returned[i]
  {
    match e {
      case ByReader(r) => CleanReader(s, r);
      case ByCaller(c) => CleanCaller(s, c);
      case ByOther(l) => CleanOther(s, l);
    }
  }

  ghost predicate ReturnedCurrent(returned: seq<Return>, from: nat) {
    forall i :: from <= i < |returned| ==> returned[i].item.epoch == returned[i].epoch
  }

  ghost predicate CarefulRun(s: State, events: seq<Event>)
    requires Legal(s, events)
    decreases |events|
  {
    events != [] ==> Careful(s, events[0]) && CarefulRun(Apply(s, events[0]), events[1..])
  }

  lemma {:induction false} CleanRuns(s: State, events: seq<Event>)
    requires Tidy(s) && Clean(s) && Legal(s, events) && CarefulRun(s, events)
    ensures var t := Final(s, events);
            |s.given.returned| <= |t.given.returned| && ReturnedCurrent(t.given.returned, |s.given.returned|)
            && forall i :: 0 <= i < |s.given.returned| ==> t.given.returned[i] == s.given.returned[i]
    decreases |events|
  {
    if events != [] {
      TidyStep(s, events[0]);
      CleanStep(s, events[0]);
      CleanRuns(Apply(s, events[0]), events[1..]);
    }
  }

  // ---------------------------------------------------------------- the condition is needed

  /** Later states in which no other start has cleared and nothing has been returned. */
  ghost predicate Onward(s: State, t: State) {
    && Leads(s, t) && Tidy(t)
    && t.starts == s.starts && t.counts.epoch == s.counts.epoch && t.given.returned == s.given.returned
  }

  lemma OnwardTransitive(s: State, t: State, u: State)
    requires Onward(s, t) && Onward(t, u)
    ensures Onward(s, u)
  {
    LeadsTransitive(s, t, u);
  }

  /** One more event. */
  lemma Next(s: State, e: Event) returns (t: State)
    requires Tidy(s) && Enabled(s, e) && e != CLEAR && e != LATE_CLEAR
    ensures t == Apply(s, e) && Leads(s, t) && Tidy(t)
  {
    t := Apply(s, e);
    TidyStep(s, e);
    assert Legal(t, []) && Final(t, []) == t;
    assert WithoutClear([e]) && Legal(s, [e]) && Final(s, [e]) == t;
  }

  /** The reader side and the link are as they were. */
  ghost predicate SameReader(s: State, t: State) {
    t.reader == s.reader && t.running == s.running && t.connected == s.connected
  }

  /** How far a call is from being given up. */
  function Ahead(sender: Sender): nat {
    match sender
    case Free => 0
    case Waiting(_, _) => 1
    case Writing(_, _) => 1
    case Arming(_) => 2
    case Adding(_) => 3
    case Loaded(_, _) => 4
    case Loading(_) => 5
  }

  lemma GivesUp(s: State) returns (t: State)
    requires Tidy(s) && !s.sender.Free? && (s.sender.Waiting? ==> s.guarded.pending.None? && !s.guarded.hasAck)
    ensures Onward(s, t) && SameReader(s, t) && Ahead(t.sender) < Ahead(s.sender) && !t.sender.Waiting?
    ensures t.guarded.lastSeen == s.guarded.lastSeen && (Blank(s.guarded) ==> Blank(t.guarded))
  {
    var e := match s.sender
      case Waiting(call, _) => if call.ask.None? then SendThrows else RequestThrows
      case Writing(_, _) => WriteFails(false)
      case Arming(_) => Arm
      case Adding(_) => FetchAdd
      case Loaded(_, cur) => if Folds(cur) then Store else FetchAdd
      case _ => Load;
    if e.Arm? && Blank(s.guarded) && s.sender.call.ask.Some? {
      NoMatch(s.guarded, s.sender.call.ask.value.0, s.sender.call.ask.value.1);
    }
    t := Next(s, ByCaller(e));
  }

  lemma NoMatch(g: Guarded, opcode: byte, subtype: int)
    requires Blank(g)
    ensures FirstMatch(g.unmatched, opcode, subtype) == |g.unmatched|
  {
    assert forall i :: 0 <= i < |g.unmatched| ==> g.unmatched[i] in g.unmatched;
  }

  /** Whatever call is in progress can end without a result. */
  lemma {:induction false} EndCall(s: State) returns (t: State)
    requires Tidy(s) && (s.sender.Waiting? ==> s.guarded.pending.None? && !s.guarded.hasAck)
    ensures Onward(s, t) && SameReader(s, t) && t.sender.Free?
    ensures t.guarded.lastSeen == s.guarded.lastSeen && (Blank(s.guarded) ==> Blank(t.guarded))
    decreases Ahead(s.sender)
  {
    if s.sender.Free? {
      LeadsItself(s);
      t := s;
    } else {
      var u := GivesUp(s);
      t := EndCall(u);
      OnwardTransitive(s, u, t);
    }
  }

  /** A stale answer is waiting for a request that has been armed and not yet written. */
  ghost predicate Primed(s: State) {
    && s.sender.Writing? && s.sender.call.ask.Some?
    && Answered(s.guarded) && s.guarded.pending.value.response.value.epoch <= s.counts.epoch
  }

  ghost predicate KeepsAnswer(s: State, t: State) {
    t.sender == s.sender && (Primed(s) ==> Primed(t))
  }

  /** How far the reader is from being done with the first frame of its inbox. */
  function Left(phase: Phase): nat {
    match phase case Queued => 0 case Accepted => 1 case Acked => 2 case Fresh => 3
  }

  /** Unless it hands the first frame out, a step leaves the queue without answers and what is in hand as it was. */
  ghost predicate Passed(s: State, t: State) {
    s.reader.inbox != [] && Blank(s.guarded)
    && !(s.reader.phase == Accepted && s.reader.inbox[0].frame.payload != []) ==>
      Blank(t.guarded) && (HandsOut(t.reader, t.guarded.lastSeen) <==> HandsOut(s.reader, s.guarded.lastSeen))
  }

  /** The reader's next step with that frame. */
  function ReaderNext(r: Reader): ReaderEvent
    requires r.inbox != []
  {
    match r.phase
    case Fresh =>
      var kind := r.inbox[0].frame.kind;
      if kind == ACK then HandleAck else if kind == DATA_MDR then Acknowledge(false) else SkipOther
    case Acked => CheckDuplicate
    case Accepted => Deliver
    case Queued => Dispatch
  }

  lemma NextPasses(s: State)
    requires Tidy(s) && s.reader.inbox != []
    ensures ReaderMay(s, ReaderNext(s.reader)) && Passed(s, ReaderStep(s, ReaderNext(s.reader)))
  {
    var e := ReaderNext(s.reader);
    HandsOutStep(s, e);
    var t := ReaderStep(s, e);
    if e.Deliver? {
      assert forall item <- t.guarded.unmatched :: item in s.guarded.unmatched || item == s.reader.inbox[0];
    } else {
      assert t.guarded.unmatched == s.guarded.unmatched && Answered(t.guarded) == Answered(s.guarded);
    }
  }

  lemma Processed(s: State) returns (t: State)
    requires Tidy(s) && s.reader.inbox != []
    ensures Onward(s, t) && t.running == s.running && t.connected == s.connected && KeepsAnswer(s, t)
    ensures t.reader == Popped(s.reader) || (t.reader == s.reader.(phase := t.reader.phase)
                                             && Left(t.reader.phase) < Left(s.reader.phase))
    ensures Passed(s, t)
  {
    NextPasses(s);
    t := Next(s, ByReader(ReaderNext(s.reader)));
  }

  /** The reader can finish with the first frame of its inbox. */
  lemma {:induction false} PopOne(s: State) returns (t: State)
    requires Tidy(s) && s.reader.inbox != []
    ensures Onward(s, t) && t.reader == Popped(s.reader) && t.running == s.running && t.connected == s.connected
    ensures KeepsAnswer(s, t)
    decreases Left(s.reader.phase)
  {
    var u := Processed(s);
    if u.reader == Popped(s.reader) {
      t := u;
    } else {
      t := PopOne(u);
      OnwardTransitive(s, u, t);
    }
  }

  lemma {:induction false} Drain(s: State) returns (t: State)
    requires Tidy(s)
    ensures Onward(s, t) && t.reader == s.reader.(inbox := [], phase := Fresh)
    ensures t.running == s.running && t.connected == s.connected && KeepsAnswer(s, t)
    decreases |s.reader.inbox|
  {
    if s.reader.inbox == [] {
      LeadsItself(s);
      t := s;
    } else {
      var u := PopOne(s);
      t := Drain(u);
      OnwardTransitive(s, u, t);
    }
  }

  /** The reader finishes its frames and goes, as the joining start waits for it to do. */
  lemma Joined(s: State) returns (t: State)
    requires Tidy(s)
    ensures Onward(s, t) && t.reader.stage == Gone && t.reader.inbox == [] && KeepsAnswer(s, t)
  {
    var u := Drain(s);
    t := Next(u, ByOther(StopRunning));
    OnwardTransitive(s, u, t);
    if t.reader.stage == Holding {
      u := Next(t, ByReader(Decode([])));
      OnwardTransitive(s, t, u);
      t := u;
    }
    if t.reader.stage != Gone {
      u := Next(t, ByReader(Stop));
      OnwardTransitive(s, t, u);
      t := u;
    }
  }

  /** A stale answer that is waiting is returned once the start has launched its reader. */
  lemma PrimedReturns(s: State)
    requires Tidy(s) && Primed(s) && s.starts.cleared > 0
    ensures StaleAfter(s)
  {
    var t := Joined(s);
    var u := Next(t, ByOther(Launch));
    LeadsTransitive(s, t, u);
    t := Next(u, ByOther(LinkUp));
    LeadsTransitive(s, u, t);
    u := Next(t, ByCaller(WriteDone));
    LeadsTransitive(s, t, u);
    t := Next(u, ByCaller(RequestReturns));
    LeadsTransitive(s, u, t);
    assert t.given.returned[|s.given.returned|].epoch == s.counts.epoch + 1;
    assert HasStale(t.given.returned, |s.given.returned|);
  }

  /** The first frame of the inbox is one the reader will hand out. */
  predicate HeadPasses(s: State) {
    && s.reader.inbox != [] && s.reader.phase != Queued && Handable(s.reader.inbox[0])
    && (s.reader.phase == Accepted || s.guarded.lastSeen != Some(s.reader.inbox[0].frame.sequence))
  }

  /** No call is in progress and no answer can be found. */
  ghost predicate Waits(s: State) {
    Tidy(s) && s.starts.cleared > 0 && s.sender.Free? && Blank(s.guarded)
  }

  /** A request for the frame in the reader's hands, armed just before the reader delivers it. */
  lemma Asked(s: State) returns (t: State)
    requires Waits(s) && HeadPasses(s)
    ensures Onward(s, t) && t.reader == s.reader && t.guarded.lastSeen == s.guarded.lastSeen
    ensures t.sender.Writing? && t.sender.call.ask.Some? && Awaits(t.guarded, s.reader.inbox[0].frame.payload)
  {
    var opcode := s.reader.inbox[0].frame.payload[0];
    NoMatch(s.guarded, opcode, -1);
    var u := Next(s, ByCaller(Begin(Call(false, Some((opcode, -1))))));
    t := Next(u, ByCaller(Arm));
    OnwardTransitive(s, u, t);
  }

  lemma {:induction false} HandedOut(s: State) returns (t: State)
    requires Tidy(s) && HeadPasses(s)
    requires s.sender.Writing? && s.sender.call.ask.Some? && Awaits(s.guarded, s.reader.inbox[0].frame.payload)
    ensures Onward(s, t) && Primed(t)
    decreases Left(s.reader.phase)
  {
    assert s.reader.inbox[0] in s.reader.inbox;
    var e := match s.reader.phase case Accepted => Deliver case Acked => CheckDuplicate case _ => Acknowledge(false);
    var u := Next(s, ByReader(e));
    if s.reader.phase == Accepted {
      t := u;
    } else {
      t := HandedOut(u);
      OnwardTransitive(s, u, t);
    }
  }

  lemma HeadReturns(s: State)
    requires Waits(s) && HeadPasses(s)
    ensures StaleAfter(s)
  {
    var t := Asked(s);
    var u := HandedOut(t);
    OnwardTransitive(s, t, u);
    PrimedReturns(u);
    OnwardStale(s, u);
  }

  lemma OnwardStale(s: State, t: State)
    requires Leads(s, t) && t.given.returned == s.given.returned && StaleAfter(t)
    ensures StaleAfter(s)
  {
    var u :| Leads(t, u) && HasStale(u.given.returned, |t.given.returned|);
    LeadsTransitive(s, t, u);
  }

  lemma {:induction false} HandsReturn(s: State)
    requires Waits(s) && HandsOut(s.reader, s.guarded.lastSeen)
    ensures StaleAfter(s)
    decreases |s.reader.inbox|, Left(s.reader.phase)
  {
    if HeadPasses(s) {
      HeadReturns(s);
    } else {
      var t := Processed(s);
      HandsReturn(t);
      OnwardStale(s, t);
    }
  }

  /** With nothing to hand out, the reader can finish its inbox without leaving an answer anywhere. */
  lemma {:induction false} Finished(s: State) returns (t: State)
    requires Waits(s) && !HandsOut(s.reader, s.guarded.lastSeen)
    ensures Onward(s, t) && Waits(t) && t.reader == s.reader.(inbox := [], phase := Fresh) && t.running == s.running
    decreases |s.reader.inbox|, Left(s.reader.phase)
  {
    if s.reader.inbox == [] {
      LeadsItself(s);
      t := s;
    } else {
      var u := Processed(s);
      t := Finished(u);
      OnwardTransitive(s, u, t);
    }
  }

  /** A reader that may decode can come to hold a frame that passes. */
  lemma DecodesOne(s: State) returns (t: State)
    requires Waits(s) && MayDecode(s) && s.reader.inbox == []
    ensures Onward(s, t) && Waits(t) && HeadPasses(t)
  {
    LeadsItself(s);
    t := s;
    var u := s;
    if t.reader.stage == Checking {
      t := Next(s, ByReader(Poll));
    }
    if t.reader.stage == Receiving {
      u := Next(t, ByReader(Take));
      OnwardTransitive(s, t, u);
      t := u;
    }
    var number: byte := if s.guarded.lastSeen == Some(0) then 1 else 0;
    u := Next(t, ByReader(Decode([Frame(DATA_MDR, number, [0x23])])));
    OnwardTransitive(s, t, u);
    t := u;
  }

  lemma DecodingReturns(s: State)
    requires Waits(s) && MayDecode(s)
    ensures StaleAfter(s)
  {
    if HandsOut(s.reader, s.guarded.lastSeen) {
      HandsReturn(s);
    } else {
      var t := Finished(s);
      var u := DecodesOne(t);
      HeadReturns(u);
      OnwardTransitive(s, t, u);
      OnwardStale(s, u);
    }
  }

  /** With two starts past their clear, the first one's reader serves the second one's session. */
  lemma TwoStartsReturn(s: State)
    requires Waits(s) && s.starts.cleared > 1 && !MayDecode(s) && !HandsOut(s.reader, s.guarded.lastSeen)
    ensures StaleAfter(s)
  {
    var t := Finished(s);
    if t.reader.stage != Gone {
      var v := Next(t, ByReader(Stop));
      OnwardTransitive(s, t, v);
      t := v;
    }
    var u := Next(t, ByOther(Launch));
    LeadsTransitive(s, t, u);
    DecodingReturns(u);
    OnwardStale(s, u);
  }

  /**
    The exact condition: after a start has cleared the session, and before another start or a disconnect does,
    a response of an earlier reader can be returned if and only if the session was exposed when it cleared. A
    start that has joined the previous reader, and is alone, is safe.
   */
  lemma {:induction false} StartIsSafe(s: State)
    requires Reachable(s) && Enabled(s, CLEAR)
    ensures StaleAfter(Apply(s, CLEAR)) <==> Exposed(s)
    ensures s.reader.stage == Gone && s.starts.cleared == 0 ==> !Exposed(s)
  {
    ReachableIsTidy(s);
    var t := Apply(s, CLEAR);
    TidyStep(s, CLEAR);
    if Exposed(s) {
      var u := EndCall(t);
      if MayDecode(s) {
        DecodingReturns(u);
      } else if InHands(s.reader) {
        HandsReturn(u);
      } else {
        TwoStartsReturn(u);
      }
      OnwardStale(t, u);
    } else {
      NothingStale(t);
    }
  }

  lemma {:induction false} WithoutClearIsCareful(s: State, events: seq<Event>)
    requires Legal(s, events) && WithoutClear(events)
    ensures CarefulRun(s, events)
    decreases |events|
  {
    if events != [] {
      assert events[0] in events && forall e <- events[1..] :: e in events;
      WithoutClearIsCareful(Apply(s, events[0]), events[1..]);
    }
  }

  lemma NothingStale(s: State)
    requires Tidy(s) && Clean(s)
    ensures !StaleAfter(s)
  {
    forall t | Leads(s, t)
      ensures !HasStale(t.given.returned, |s.given.returned|)
    {
      var events :| WithoutClear(events) && Legal(s, events) && Final(s, events) == t;
      WithoutClearIsCareful(s, events);
      CleanRuns(s, events);
    }
  }

  ghost predicate CarefullyReachable(s: State) {
    exists events :: Legal(Initial(), events) && CarefulRun(Initial(), events) && Final(Initial(), events) == s
  }

  /** In every run whose clears are careful, every response was decoded by the current reader. */
  lemma {:induction false} ResponsesAreCurrent(s: State)
    requires CarefullyReachable(s)
    ensures forall r <- s.given.returned :: r.item.epoch == r.epoch
  {
    var events :| Legal(Initial(), events) && CarefulRun(Initial(), events) && Final(Initial(), events) == s;
    CleanRuns(Initial(), events);
  }

  // ---------------------------------------------------------------- a run in which it fails

  /**
    A first session's reader has received bytes when a write fails and stops the session; nothing is decoded
    yet. The next start clears, and only then does the old reader decode its bytes.
   */
  lemma StaleResponse() returns (s: State)
    ensures Reachable(s) && s.given.returned != []
    ensures s.given.returned[0].item.epoch < s.given.returned[0].epoch
  {
    s := ReceivedUnderFailure();
    s := RestartedUnderReader(s);
    s := AskedAndAnswered(s);
  }

  lemma ReceivedUnderFailure() returns (s: State)
    ensures Reachable(s) && s.connected && !s.running && s.sender.Free? && s.given.returned == []
    ensures s.counts.epoch == 1 && s.starts == Starts(0, 0)
    ensures s.reader == Reader(Holding, [], Fresh, 0)
  {
    s := Started();
    s := ReachableExtends(s, ByReader(Poll));
    s := ReachableExtends(s, ByReader(Take));
    s := ReachableExtends(s, ByCaller(Begin(Call(false, None))));
    s := ReachableExtends(s, ByCaller(Arm));
    s := ReachableExtends(s, ByCaller(WriteFails(true)));
  }

  lemma RestartedUnderReader(s: State) returns (t: State)
    requires Reachable(s) && s.connected && !s.running && s.sender.Free? && s.given.returned == []
    requires s.counts.epoch == 1 && s.starts == Starts(0, 0) && s.reader == Reader(Holding, [], Fresh, 0)
    ensures Reachable(t) && Live(t) && t.sender.Free? && t.given.returned == [] && t.counts.epoch == 2
    ensures t.guarded.unmatched == [Item(Frame(DATA_MDR, 0, [0x23]), 0, 1)]
  {
    t := ReachableExtends(s, ByOther(TestStart));
    t := ReachableExtends(t, ByOther(ClearOnStart));
    t := ReachableExtends(t, ByReader(Decode([Frame(DATA_MDR, 0, [0x23])])));
    t := ReachableExtends(t, ByReader(Acknowledge(false)));
    t := ReachableExtends(t, ByReader(CheckDuplicate));
    t := ReachableExtends(t, ByReader(Deliver));
    t := ReachableExtends(t, ByReader(Dispatch));
    t := ReachableExtends(t, ByReader(Stop));
    t := ReachableExtends(t, ByOther(Launch));
  }

  lemma AskedAndAnswered(s: State) returns (t: State)
    requires Reachable(s) && s.sender.Free? && Live(s) && s.given.returned == []
    requires |s.guarded.unmatched| == 1 && s.guarded.unmatched[0].frame.payload == [0x23]
    ensures Reachable(t)
    ensures t.given.returned == [Return(s.guarded.unmatched[0], 0x23, -1, s.counts.epoch)]
  {
    t := ReachableExtends(s, ByCaller(Begin(Call(false, Some((0x23, -1))))));
    t := ReachableExtends(t, ByCaller(Arm));
    t := ReachableExtends(t, ByCaller(WriteDone));
    t := ReachableExtends(t, ByCaller(RequestReturns));
  }
}
