/**
  The link lifecycle: automatic connection with exponential backoff, loss detection and manual release.

  Times are milliseconds of a monotone clock. What the environment decides (clock readings, discovery,
  whether a connection attempt succeeds, when the link is lost) is input.
 */
module DeviceService {
  import opened Base

  datatype Phase = Idle | Connecting | Connected | Searching | Retrying | Released

  /** link is the device's own idea of being connected; device says that the device object exists. */
  datatype Service = Service(
    automatic: bool,
    wasConnected: bool,
    retrySeconds: nat,
    nextAttempt: int,
    nextSettings: int,
    nextBattery: int,
    target: string,
    selected: string,
    phase: Phase,
    link: bool,
    device: bool)

  /**
    What one tick meets: four clock readings in order, what discovery returns (None if it throws), and
    which of the attempts, in order, end with a live link.
   */
  datatype TickInput = TickInput(
    first: int,
    check: int,
    done: int,
    last: int,
    found: Option<seq<string>>,
    succeeds: seq<bool>)

  predicate Monotone(input: TickInput) {
    input.first <= input.check <= input.done <= input.last
  }

  /** What a tick did: nothing towards connecting, or a round that connected or failed. */
  datatype Round = NoRound | Connects | Fails

  function Initial(): Service {
    Service(false, false, 1, 0, 0, 0, "", "", Idle, false, false)
  }

  function Candidates(s: Service, found: seq<string>): seq<string> {
    if s.target == "" then found else [s.target]
  }

  predicate Succeeds(input: TickInput, i: nat) {
    i < |input.succeeds| && input.succeeds[i]
  }

  /** The first of n attempts that succeeds, or n. */
  function FirstSuccess(input: TickInput, n: nat, i: nat): (k: nat)
    requires i <= n
    ensures i <= k <= n && (k < n ==> Succeeds(input, k)) && forall j :: i <= j < k ==> !Succeeds(input, j)
    decreases n - i
  {
    if i == n || Succeeds(input, i) then i else FirstSuccess(input, n, i + 1)
  }

  function Linked(s: Service, address: string, now: int): Service {
    s.(selected := address, device := true, link := true, wasConnected := true, phase := Connected,
       retrySeconds := 1, nextSettings := now + 5000, nextBattery := now + 30000)
  }

  function Backoff(s: Service, now: int): Service {
    s.(phase := Retrying, nextAttempt := now + 1000 * s.retrySeconds,
       retrySeconds := if 2 * s.retrySeconds < 30 then 2 * s.retrySeconds else 30)
  }

  /** Attempts every candidate until one connects; a failed attempt leaves the device disconnected. */
  function Tried(s: Service, candidates: seq<string>, input: TickInput): (Service, Round) {
    var k := FirstSuccess(input, |candidates|, 0);
    if k < |candidates| then (Linked(s, candidates[k], input.done), Connects)
    else
      (Backoff(Attempted(s, candidates), input.last), Fails)
  }

  /** The service after failing attempts at all the candidates, apart from its phase. */
  function Attempted(s: Service, candidates: seq<string>): Service {
    if candidates == [] then s
    else s.(selected := candidates[|candidates| - 1], device := true, link := false)
  }

  ghost predicate SameButPhase(s: Service, t: Service) {
    s == t.(phase := s.phase)
  }

  /** A round that stops at its first success shows nothing of the candidates tried before. */
  lemma TriedUntil(s: Service, t: Service, candidates: seq<string>, input: TickInput, i: nat)
    requires i < |candidates| && Succeeds(input, i) && SameButPhase(t, Attempted(s, candidates[..i]))
    requires FirstSuccess(input, |candidates|, 0) == FirstSuccess(input, |candidates|, i)
    ensures Tried(s, candidates, input) == (Linked(t, candidates[i], input.done), Connects)
  {
  }

  lemma TriedAll(s: Service, t: Service, candidates: seq<string>, input: TickInput)
    requires FirstSuccess(input, |candidates|, 0) == |candidates| && SameButPhase(t, Attempted(s, candidates))
    ensures Tried(s, candidates, input) == (Backoff(t, input.last), Fails)
  {
  }

  lemma TriedOneMore(s: Service, t: Service, candidates: seq<string>, i: nat)
    requires i < |candidates| && SameButPhase(t, Attempted(s, candidates[..i]))
    ensures SameButPhase(Attempted(t, [candidates[i]]).(phase := Connecting), Attempted(s, candidates[..i + 1]))
  {
    assert candidates[..i + 1][i] == candidates[i];
  }

  function Ticked(s: Service, input: TickInput): (Service, Round) {
    if s.device && s.link then
      var t := if input.first >= s.nextSettings then s.(nextSettings := input.check + 500) else s;
      (if input.done >= s.nextBattery then t.(nextBattery := input.last + 30000) else t, NoRound)
    else if !s.automatic then (s, NoRound)
    else
      var t := if s.wasConnected
               then s.(wasConnected := false, link := false, nextAttempt := input.first, phase := Retrying)
               else s;
      if input.check < t.nextAttempt then (t, NoRound)
      else match input.found
        case None => (Backoff(t, input.last), Fails)
        case Some(found) => Tried(t, Candidates(t, found), input)
  }

  function ConnectCalled(s: Service, address: string, ok: bool, now: int): Service {
    var t := s.(target := address, automatic := true, retrySeconds := 1);
    if ok then Linked(t, address, now)
    else t.(selected := address, device := true, link := false, wasConnected := false, phase := Retrying,
            nextAttempt := now + 1000)
  }

  function DisconnectCalled(s: Service): Service {
    s.(automatic := false, wasConnected := false, phase := Released, link := false)
  }

  function AutoConnectCalled(s: Service, address: string, now: int): Service {
    s.(target := address, automatic := true, retrySeconds := 1, nextAttempt := now, phase := Searching)
  }

  class LinkService {
    var automatic: bool
    var wasConnected: bool
    var retrySeconds: nat
    var nextAttempt: int
    var nextSettings: int
    var nextBattery: int
    var target: string
    var selected: string
    var phase: Phase
    var link: bool
    var device: bool

    ghost function View(): Service reads this {
      Service(automatic, wasConnected, retrySeconds, nextAttempt, nextSettings, nextBattery,
              target, selected, phase, link, device)
    }

    constructor ()
      ensures View() == Initial()
    {
      automatic, wasConnected, retrySeconds := false, false, 1;
      nextAttempt, nextSettings, nextBattery := 0, 0, 0;
      target, selected, phase, link, device := "", "", Idle, false, false;
    }

    /** ok is whether the device ends up connected; otherwise the caller sees an exception. */
    method ConnectDevice(address: string, ok: bool, now: int) returns (thrown: bool)
      modifies this
      ensures thrown == !ok
      ensures ok ==> View() == Linked(old(View()), address, now)
      ensures !ok ==> View() == old(View()).(selected := address, device := true, phase := Connecting)
    {
      selected := address;
      phase := Connecting;
      device := true;
      if !ok {
        return true;
      }
      link := true;
      wasConnected := true;
      phase := Connected;
      retrySeconds := 1;
      nextSettings := now + 5000;
      nextBattery := now + 30000;
      return false;
    }

    method Connect(address: string, ok: bool, now: int) returns (thrown: bool)
      modifies this
      ensures thrown == !ok && View() == ConnectCalled(old(View()), address, ok, now)
    {
      target := address;
      automatic := true;
      retrySeconds := 1;
      thrown := ConnectDevice(address, ok, now);
      if thrown {
        wasConnected := false;
        link := false;
        phase := Retrying;
        nextAttempt := now + 1000;
      }
    }

    method Disconnect()
      modifies this
      ensures View() == DisconnectCalled(old(View()))
    {
      automatic := false;
      wasConnected := false;
      phase := Released;
      link := false;
    }

    method StartAutoConnect(address: string, now: int)
      modifies this
      ensures View() == AutoConnectCalled(old(View()), address, now)
    {
      target := address;
      automatic := true;
      retrySeconds := 1;
      nextAttempt := now;
      phase := Searching;
    }

    /** One attempt of a round; a failed one leaves the device disconnected. */
    method Attempt(address: string, ok: bool, now: int) returns (connected: bool)
      modifies this
      ensures connected == ok
      ensures ok ==> View() == Linked(old(View()), address, now)
      ensures !ok ==> View() == Attempted(old(View()), [address]).(phase := Connecting)
    {
      var thrown := ConnectDevice(address, ok, now);
      connected := !thrown;
      if thrown {
        link := false;
      }
    }

    method TryCandidates(candidates: seq<string>, input: TickInput) returns (round: Round)
      modifies this
      ensures (View(), round) == Tried(old(View()), candidates, input)
    {
      ghost var start := View();
      phase := Searching;
      var i := 0;
      while i < |candidates|
        invariant 0 <= i <= |candidates|
        invariant FirstSuccess(input, |candidates|, 0) == FirstSuccess(input, |candidates|, i)
        invariant SameButPhase(View(), Attempted(start, candidates[..i]))
      {
        ghost var before := View();
        var connected := Attempt(candidates[i], i < |input.succeeds| && input.succeeds[i], input.done);
        if connected {
          TriedUntil(start, before, candidates, input, i);
          return Connects;
        }
        TriedOneMore(start, before, candidates, i);
        i := i + 1;
      }
      assert candidates[..i] == candidates;
      TriedAll(start, View(), candidates, input);
      Fail(input.last);
      return Fails;
    }

    method Fail(now: int)
      modifies this`phase, this`nextAttempt, this`retrySeconds
      ensures View() == Backoff(old(View()), now)
    {
      phase := Retrying;
      nextAttempt := now + 1000 * retrySeconds;
      retrySeconds := if 2 * retrySeconds < 30 then 2 * retrySeconds else 30;
    }

    /** Maintenance while connected, otherwise loss detection and at most one round of attempts. */
    method Tick(input: TickInput) returns (round: Round)
      modifies this
      ensures (View(), round) == Ticked(old(View()), input)
    {
      if device && link {
        if input.first >= nextSettings {
          nextSettings := input.check + 500;
        }
        if input.done >= nextBattery {
          nextBattery := input.last + 30000;
        }
        return NoRound;
      }
      if !automatic {
        return NoRound;
      }
      if wasConnected {
        wasConnected := false;
        link := false;
        nextAttempt := input.first;
        phase := Retrying;
      }
      if input.check < nextAttempt {
        return NoRound;
      }
      if input.found.None? {
        Fail(input.last);
        return Fails;
      }
      var candidates := input.found.value;
      if target != "" {
        candidates := [target];
      }
      round := TryCandidates(candidates, input);
    }
  }

  // ---------------------------------------------------------------- runs

  datatype Event =
    | AutoConnect(address: string, at: int)
    | Connect(address: string, ok: bool, at: int)
    | Disconnect(at: int)
    | Tick(input: TickInput)
    | LinkLost(at: int)

  /** A round that failed: when it was decided, when it ended, its number since the last reset, and the reset count. */
  datatype Failure = Failure(start: int, end: int, number: nat, era: nat)

  /**
    History beside the service: the clock, the failures of all rounds, how many since the last reset of the
    delay, how many resets there were, and whether the last request was to release the link.
   */
  datatype History = History(
    now: int,
    failures: seq<Failure>,
    streak: nat,
    era: nat,
    released: bool,
    roundsWhileReleased: nat)

  datatype State = State(service: Service, history: History)

  predicate Enabled(s: State, e: Event) {
    match e
    case Tick(input) => Monotone(input) && s.history.now <= input.first
    case _ => s.history.now <= e.at
  }

  function Reset(h: History, now: int): History {
    h.(now := now, streak := 0, era := h.era + 1)
  }

  function Apply(s: State, e: Event): State {
    var h := s.history;
    match e
    case AutoConnect(address, at) =>
      State(AutoConnectCalled(s.service, address, at), Reset(h, at).(released := false))
    case Connect(address, ok, at) =>
      State(ConnectCalled(s.service, address, ok, at), Reset(h, at).(released := false))
    case Disconnect(at) => State(DisconnectCalled(s.service), h.(now := at, released := true))
    case LinkLost(at) => State(s.service.(link := false), h.(now := at))
    case Tick(input) =>
      var (t, round) := Ticked(s.service, input);
      var counted := if round != NoRound && h.released then h.(roundsWhileReleased := h.roundsWhileReleased + 1) else h;
      match round
      case NoRound => State(t, h.(now := input.last))
      case Connects => State(t, Reset(counted, input.last))
      case Fails =>
        State(t, counted.(now := input.last, streak := h.streak + 1,
                          failures := h.failures + [Failure(input.check, input.last, h.streak + 1, h.era)]))
  }

  ghost predicate Legal(s: State, events: seq<Event>)
    decreases |events|
  {
    events != [] ==> Enabled(s, events[0]) && Legal(Apply(s, events[0]), events[1..])
  }

  ghost function Final(s: State, events: seq<Event>): State
    decreases |events|
  {
    if events == [] then s else Final(Apply(s, events[0]), events[1..])
  }

  function Start(): State {
    State(Initial(), History(0, [], 0, 0, true, 0))
  }

  ghost predicate Reachable(s: State) {
    exists events :: Legal(Start(), events) && Final(Start(), events) == s
  }

  function Power(n: nat): nat {
    if n == 0 then 1 else 2 * Power(n - 1)
  }

  /** The delay in seconds after the k-th consecutive failure, counted from 0: 1, 2, 4, 8, 16, 30, 30, ... */
  function Delay(k: nat): nat {
    if Power(k) < 30 then Power(k) else 30
  }

  lemma DelayDoubles(k: nat)
    ensures Delay(k + 1) == if 2 * Delay(k) < 30 then 2 * Delay(k) else 30
  {
  }

  lemma {:induction false} PowerGrows(k: nat)
    ensures k >= 5 ==> Power(k) >= 32
  {
    if k > 5 {
      PowerGrows(k - 1);
    } else if k == 5 {
      assert Power(5) == 2 * Power(4) && Power(4) == 2 * Power(3) && Power(3) == 2 * Power(2);
    }
  }

  lemma DelayValues(k: nat)
    ensures Delay(k) in {1, 2, 4, 8, 16, 30}
  {
    PowerGrows(k);
    assert Power(0) == 1 && Power(1) == 2 && Power(2) == 4 && Power(3) == 8 && Power(4) == 16;
  }

  /** If both failures belong to one era, the second is the next one and comes no earlier than the delay allows. */
  ghost predicate Follows(f: Failure, next: Failure) {
    f.number >= 1 && (f.era == next.era ==>
      next.number == f.number + 1 && next.start >= f.end + 1000 * Delay(f.number - 1))
  }

  /** Consecutive failures of one era are numbered in order and kept apart by the delay. */
  ghost predicate Spaced(failures: seq<Failure>) {
    forall i :: 0 < i < |failures| ==> Follows(failures[i - 1], failures[i])
  }

  ghost predicate Sound(s: State) {
    var v, h := s.service, s.history;
    && v.retrySeconds == Delay(h.streak)
    && (v.wasConnected ==> v.device) && (v.link ==> v.wasConnected)
    && (h.released ==> !v.automatic) && h.roundsWhileReleased == 0
    && (v.wasConnected ==> h.streak == 0)
    && Spaced(h.failures)
    && (forall f <- h.failures :: f.number >= 1 && f.era <= h.era)
    && (h.streak > 0 ==>
          && h.failures != []
          && var f := h.failures[|h.failures| - 1];
             f.era == h.era && f.number == h.streak && v.nextAttempt >= f.end + 1000 * Delay(h.streak - 1))
    && (h.streak == 0 && h.failures != [] ==> h.failures[|h.failures| - 1].era < h.era)
  }

  lemma SpacedAppend(failures: seq<Failure>, f: Failure)
    requires Spaced(failures) && (failures != [] ==> Follows(failures[|failures| - 1], f))
    ensures Spaced(failures + [f])
  {
    var all := failures + [f];
    forall i | 0 < i < |all|
      ensures Follows(all[i - 1], all[i])
    {
      if i < |failures| {
        assert Follows(failures[i - 1], failures[i]);
      }
    }
  }

  lemma TickSound(s: State, input: TickInput)
    requires Sound(s) && Enabled(s, Tick(input))
    ensures Sound(Apply(s, Tick(input)))
  {
    var h := s.history;
    DelayDoubles(h.streak);
    if Ticked(s.service, input).1 == Fails {
      SpacedAppend(h.failures, Failure(input.check, input.last, h.streak + 1, h.era));
    }
  }

  lemma SoundStep(s: State, e: Event)
    requires Sound(s) && Enabled(s, e)
    ensures Sound(Apply(s, e))
  {
    assert Delay(0) == 1;
    match e {
      case Tick(input) => TickSound(s, input);
      case _ =>
    }
  }

  lemma {:induction false} SoundRuns(s: State, events: seq<Event>)
    requires Sound(s) && Legal(s, events)
    ensures Sound(Final(s, events))
    decreases |events|
  {
    if events != [] {
      SoundStep(s, events[0]);
      SoundRuns(Apply(s, events[0]), events[1..]);
    }
  }

  lemma ReachableIsSound(s: State)
    requires Reachable(s)
    ensures Sound(s)
  {
    var events :| Legal(Start(), events) && Final(Start(), events) == s;
    assert Delay(0) == 1;
    SoundRuns(Start(), events);
  }

  /**
    The lifecycle in every run: the retry delay only takes the values 1, 2, 4, 8, 16 and 30 seconds and is
    determined by the number of consecutive failed rounds; the round after the k-th one starts no earlier
    than that delay after its end; no round is made between a release and the next request to connect.
   */
  lemma Lifecycle(s: State)
    requires Reachable(s)
    ensures s.service.retrySeconds in {1, 2, 4, 8, 16, 30}
    ensures s.service.retrySeconds == Delay(s.history.streak)
    ensures Spaced(s.history.failures)
    ensures s.history.roundsWhileReleased == 0
    ensures s.service.wasConnected ==> s.service.device
  {
    ReachableIsSound(s);
    DelayValues(s.history.streak);
  }

  /** The k-th consecutive failed round schedules the next one exactly min(30, 2^(k-1)) seconds after its end. */
  lemma FailureSchedules(s: State, input: TickInput)
    requires Reachable(s) && Enabled(s, Tick(input)) && Ticked(s.service, input).1 == Fails
    ensures var t := Apply(s, Tick(input));
            && t.history.streak == s.history.streak + 1
            && t.service.nextAttempt == input.last + 1000 * Delay(t.history.streak - 1)
            && !t.service.link && t.service.automatic
  {
    ReachableIsSound(s);
  }

  /** A tick starts a round exactly if the link is down, connecting is wanted, and it is time or a loss is news. */
  lemma RoundCondition(s: State, input: TickInput)
    requires Reachable(s) && Enabled(s, Tick(input))
    ensures Ticked(s.service, input).1 != NoRound <==>
            && !s.service.link && s.service.automatic && !s.history.released
            && (s.service.wasConnected || s.service.nextAttempt <= input.check)
  {
    ReachableIsSound(s);
  }

  /**
    A release is final: whatever ticks and losses follow, until the next request to connect the service stays
    exactly as the release left it, without a link and without an attempt.
   */
  lemma {:induction false} ReleaseIsFinal(s: State, at: int, events: seq<Event>)
    requires Enabled(s, Disconnect(at)) && Legal(Apply(s, Disconnect(at)), events)
    requires forall e <- events :: e.Tick? || e.LinkLost?
    ensures var t := Final(Apply(s, Disconnect(at)), events);
            && t.service == DisconnectCalled(s.service) && !t.service.link
            && t.history.failures == s.history.failures
  {
    StaysReleased(Apply(s, Disconnect(at)), events);
  }

  lemma {:induction false} StaysReleased(s: State, events: seq<Event>)
    requires Legal(s, events) && !s.service.automatic && !s.service.link
    requires forall e <- events :: e.Tick? || e.LinkLost?
    ensures var t := Final(s, events); t.service == s.service && t.history.failures == s.history.failures
    decreases |events|
  {
    if events != [] {
      assert events[0] in events && forall e <- events[1..] :: e in events;
      StaysReleased(Apply(s, events[0]), events[1..]);
    }
  }

  /** The candidate a round connects to: the first one whose attempt succeeds, or none. */
  ghost predicate FirstToSucceed(candidates: seq<string>, input: TickInput, k: nat) {
    k < |candidates| && Succeeds(input, k) && forall i :: 0 <= i < k ==> !Succeeds(input, i)
  }

  /** What a round over some candidates comes to when the delay has just been reset. */
  ghost predicate FreshRound(candidates: seq<string>, input: TickInput, t: Service, round: Round) {
    && round != NoRound
    && (round == Connects <==> exists k: nat :: FirstToSucceed(candidates, input, k))
    && (round == Connects ==>
          && t.link && t.wasConnected
          && exists k: nat :: FirstToSucceed(candidates, input, k) && t.selected == candidates[k])
    && (round == Fails ==> !t.link && t.nextAttempt == input.last + 1000 && t.retrySeconds == 2)
  }

  lemma TriedFresh(s: Service, candidates: seq<string>, input: TickInput)
    requires s.retrySeconds == 1 && !s.link
    ensures FreshRound(candidates, input, Tried(s, candidates, input).0, Tried(s, candidates, input).1)
  {
    var k := FirstSuccess(input, |candidates|, 0);
    if k < |candidates| {
      assert FirstToSucceed(candidates, input, k);
    }
  }

  /** The addresses a round tries: the one asked for, or else all that discovery found, in its order. */
  function Wanted(address: string, found: Option<seq<string>>): seq<string> {
    if found.None? then [] else if address != "" then [address] else found.value
  }

  /**
    Automatic connection is prompt: without a link, the next tick already makes a round, on the one address
    asked for or, without one, on all that were discovered, in order; if it fails the retry is one second away
    whatever the delay was before.
   */
  lemma AutoConnectIsPrompt(s: State, address: string, at: int, input: TickInput)
    requires Enabled(s, AutoConnect(address, at)) && !s.service.link
    requires Enabled(Apply(s, AutoConnect(address, at)), Tick(input))
    ensures var (t, round) := Ticked(AutoConnectCalled(s.service, address, at), input);
            FreshRound(Wanted(address, input.found), input, t, round)
  {
    var v := AutoConnectCalled(s.service, address, at);
    var w := v.(wasConnected := false, nextAttempt := input.first, phase := Retrying);
    TriedFresh(if v.wasConnected then w else v, Wanted(address, input.found), input);
  }

  /**
    A failed explicit connect is retried after one second: whatever the state before, the next tick makes a
    round if and only if that second is over, on the same address, and a failing round is followed by the
    next one second later.
   */
  lemma {:induction false} FailedConnectRetries(s: State, address: string, at: int, input: TickInput)
    requires Reachable(s) && Enabled(s, Connect(address, false, at))
    requires Enabled(Apply(s, Connect(address, false, at)), Tick(input))
    ensures var t := Apply(s, Connect(address, false, at)).service; var (u, round) := Ticked(t, input);
            && !t.link && t.selected == address
            && (if input.check >= at + 1000 then FreshRound(Wanted(address, input.found), input, u, round)
                else round == NoRound && u == t)
  {
    var t := Apply(s, Connect(address, false, at)).service;
    TriedFresh(t, Wanted(address, input.found), input);
  }

  /**
    A successful connect starts maintenance: settings are first asked for after five seconds and then every
    half second, the battery every thirty seconds, and no tick touches the connection.
   */
  lemma MaintenanceDue(s: State, address: string, at: int, input: TickInput)
    requires Enabled(s, Connect(address, true, at)) && Enabled(Apply(s, Connect(address, true, at)), Tick(input))
    ensures var t := Apply(s, Connect(address, true, at)).service; var (u, round) := Ticked(t, input);
            && t.link && t.selected == address && t.target == address && t.automatic && round == NoRound
            && u == t.(nextSettings := if input.first >= at + 5000 then input.check + 500 else at + 5000,
                       nextBattery := if input.done >= at + 30000 then input.last + 30000 else at + 30000)
  {
  }

  // ---------------------------------------------------------------- what the service shows

  /** The connection state shown to clients: a lost link is not shown as connected. */
  function ConnectionState(s: Service): Phase {
    if s.phase == Connected && !(s.device && s.link) then Retrying else s.phase
  }

  ghost predicate Telling(s: State) {
    var v := s.service;
    && (v.link ==> v.device && (v.phase == Connected || v.phase == Searching))
    && (s.history.released <==> v.phase == Idle || v.phase == Released)
    && v.phase != Connecting
  }

  lemma TellingStep(s: State, e: Event)
    requires Sound(s) && Telling(s) && Enabled(s, e)
    ensures Telling(Apply(s, e))
    ensures e.Disconnect? ==> Apply(s, e).service.phase == Released
  {
  }

  lemma {:induction false} TellingRuns(s: State, events: seq<Event>)
    requires Sound(s) && Telling(s) && Legal(s, events)
    ensures Telling(Final(s, events))
    decreases |events|
  {
    if events != [] {
      SoundStep(s, events[0]);
      TellingStep(s, events[0]);
      TellingRuns(Apply(s, events[0]), events[1..]);
    }
  }

  /**
    In every run the state shown is connected only with a live link; a live link is shown as connected, or as
    searching if automatic connection was asked for meanwhile; and a released or idle service is shown
    exactly when no connection is wanted.
   */
  lemma {:induction false} StateShown(s: State)
    requires Reachable(s)
    ensures ConnectionState(s.service) == Connected ==> s.service.link
    ensures s.service.link ==> ConnectionState(s.service) in {Connected, Searching}
    ensures s.history.released <==> ConnectionState(s.service) in {Idle, Released}
  {
    var events :| Legal(Start(), events) && Final(Start(), events) == s;
    assert Delay(0) == 1;
    TellingRuns(Start(), events);
  }

  /** A release is shown as such, not as the idle state before the first connection. */
  lemma ReleaseShown(s: State, at: int)
    requires Enabled(s, Disconnect(at))
    ensures ConnectionState(Apply(s, Disconnect(at)).service) == Released
  {
  }
}
