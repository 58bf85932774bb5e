/**
  The daemon as two concurrent loops. The poll loop's body for one connection and each of the executor's
  steps is one event, in any interleaving. A connection has at most one job, so jobs are keyed by the
  connection's id.
 */
module IpcServerRuns {
  import opened Base
  import opened IpcServer
  import opened Text

  /** answer is the job's promise; a second set_value would throw. */
  datatype Job = Job(line: string, answer: Option<string>, cancelled: bool)

  datatype Executor = Resting | Holding(id: nat) | Running(id: nat)

  datatype State = State(
    clients: seq<Client>,
    queue: seq<nat>,
    jobs: map<nat, Job>,
    executor: Executor,
    nextId: nat)

  datatype Event =
    | Accept
    | ServeClient(i: nat, seen: Seen)
    | Dequeue
    | CheckCancelled
    | Answer(text: string)

  const BUSY := "ERR|Service busy|\n"
  const TOO_LARGE := "ERR|Response too large|\n"

  function Initial(): State {
    State([], [], map[], Resting, 0)
  }

  /** A connection is collected only once its promise is set; not noticing it yet is always possible. */
  predicate Consistent(s: State, c: Client, seen: Seen) {
    && (seen.ready.Some? ==> c.id in s.jobs && s.jobs[c.id].answer == seen.ready)
    && (seen.read.Bytes? ==> 1 <= |seen.read.data| <= READ_SIZE)
  }

  predicate Enabled(s: State, e: Event) {
    match e
    case Accept => |s.clients| < MAX_CLIENTS
    case ServeClient(i, seen) => i < |s.clients| && Consistent(s, s.clients[i], seen)
    case Dequeue => s.executor.Resting? && s.queue != []
    case CheckCancelled => s.executor.Holding? && s.executor.id in s.jobs
    case Answer(_) => s.executor.Running? && s.executor.id in s.jobs
  }

  predicate ExecutorEvent(e: Event) {
    e.Dequeue? || e.CheckCancelled? || e.Answer?
  }

  /** A completed request is queued, or answered on the spot when the queue is full. */
  function Posting(s: State, id: nat, line: Option<string>): State {
    match line
    case None => s
    case Some(text) =>
      if |s.queue| >= MAX_JOBS then s.(jobs := s.jobs[id := Job(text, Some(BUSY), false)])
      else s.(jobs := s.jobs[id := Job(text, None, false)], queue := s.queue + [id])
  }

  function Replaced(s: State, i: nat, c: Client, close: bool): State
    requires i < |s.clients|
  {
    if !close then s.(clients := s.clients[i := c])
    else
      var t := s.(clients := s.clients[..i] + s.clients[i + 1..]);
      if c.requested && c.id in s.jobs then t.(jobs := s.jobs[c.id := s.jobs[c.id].(cancelled := true)]) else t
  }

  function Apply(s: State, e: Event): State
    requires Enabled(s, e)
  {
    match e
    case Accept => s.(clients := s.clients + [NewClient(s.nextId)], nextId := s.nextId + 1)
    case ServeClient(i, seen) =>
      var served := Serve(s.clients[i], seen);
      Replaced(Posting(s, served.client.id, served.line), i, served.client, served.close)
    case Dequeue => s.(executor := Holding(s.queue[0]), queue := s.queue[1..])
    case CheckCancelled =>
      s.(executor := if s.jobs[s.executor.id].cancelled then Resting else Running(s.executor.id))
    case Answer(text) =>
      var id := s.executor.id;
      var response := if |text| > MAX_RESPONSE then TOO_LARGE else text;
      s.(executor := Resting, jobs := s.jobs[id := s.jobs[id].(answer := Some(response))])
  }

  ghost predicate Legal(s: State, events: seq<Event>)
    decreases |events|
  {
    events != [] ==> Enabled(s, events[0]) && Legal(Apply(s, events[0]), events[1..])
  }

  ghost function Final(s: State, events: seq<Event>): State
    requires Legal(s, events)
    decreases |events|
  {
    if events == [] then s else Final(Apply(s, events[0]), events[1..])
  }

  ghost predicate Reachable(s: State) {
    exists events :: Legal(Initial(), events) && Final(Initial(), events) == s
  }

  // ---------------------------------------------------------------- the invariant

  function HeldBy(executor: Executor, id: nat): nat {
    if !executor.Resting? && executor.id == id then 1 else 0
  }

  /** In how many of the three places a job is: the queue (counted), the executor, answered. */
  function Places(s: State, id: nat): nat
    requires id in s.jobs
  {
    multiset(s.queue)[id] + HeldBy(s.executor, id) + if s.jobs[id].answer.Some? then 1 else 0
  }

  /** A job is in exactly one place; only a cancelled one may have been dropped. */
  ghost predicate JobsPlaced(s: State) {
    && |s.queue| <= MAX_JOBS
    && (forall id <- s.queue :: id in s.jobs)
    && (!s.executor.Resting? ==> s.executor.id in s.jobs)
    && (s.executor.Running? ==> s.jobs[s.executor.id].answer.None?)
    && (forall id <- s.jobs :: Places(s, id) == 1 || (s.jobs[id].cancelled && Places(s, id) == 0))
  }

  /** What holds of a live connection, given the jobs. */
  ghost predicate ClientOk(c: Client, jobs: map<nat, Job>) {
    && (c.requested <==> c.id in jobs)
    && (c.requested ==> !jobs[c.id].cancelled && c.input == jobs[c.id].line + "\n")
    && (c.waiting ==> c.requested && c.output == "")
    && (c.requested && !c.waiting ==> jobs[c.id].answer == Some(c.output))
    && (!c.requested ==> c.output == "" && '\n' !in c.input)
    && c.sent <= |c.output| && c.wire == c.output[..c.sent]
  }

  ghost predicate TableOk(s: State) {
    && |s.clients| <= MAX_CLIENTS
    && (forall i, j :: 0 <= i < j < |s.clients| ==> s.clients[i].id < s.clients[j].id)
    && (forall c <- s.clients :: c.id < s.nextId && ClientOk(c, s.jobs))
    && (forall id <- s.jobs :: id < s.nextId)
  }

  ghost predicate Sound(s: State) {
    JobsPlaced(s) && TableOk(s)
  }

  // ---------------------------------------------------------------- preservation

  /** One pass over a sound connection: the facts its successor and its job depend on. */
  lemma ServePreserves(c: Client, seen: Seen, jobs: map<nat, Job>)
    requires ClientOk(c, jobs)
    requires seen.ready.Some? ==> c.id in jobs && jobs[c.id].answer == seen.ready
    ensures var d := Serve(c, seen);
            && d.client.id == c.id
            && (d.line.None? && !d.close ==> ClientOk(d.client, jobs))
            && (d.line.None? ==> d.client.requested == c.requested)
            && (d.line.Some? ==> !d.close && c.id !in jobs && d.client.requested && d.client.waiting
                                 && d.client.input == d.line.value + "\n"
                                 && d.client.output == "" && d.client.sent == 0 && d.client.wire == "")
  {
    if !(seen.expired || seen.broken) {
      var c1 := Collected(c, seen.ready);
      assert ClientOk(c1, jobs);
      var read := if seen.readable then AfterRead(c1, seen.read) else Served(c1, false, None);
      ReadPreserves(c1, seen.read, jobs);
      if !read.close && read.client.output != "" {
        WritePreserves(read.client, seen.write, jobs);
      }
    }
  }

  lemma ReadPreserves(c: Client, read: ReadOutcome, jobs: map<nat, Job>)
    requires ClientOk(c, jobs)
    ensures var d := AfterRead(c, read);
            && d.client.id == c.id
            && (d.line.None? && !d.close ==> ClientOk(d.client, jobs))
            && (d.line.None? ==> d.client.requested == c.requested)
            && (d.line.Some? ==> !d.close && c.id !in jobs && d.client.requested && d.client.waiting
                                 && d.client.input == d.line.value + "\n"
                                 && d.client.output == "" && d.client.sent == 0 && d.client.wire == "")
  {
    if read.Bytes? && !c.requested {
      var input := c.input + read.data;
      var end := IndexOfChar(input, '\n');
      assert input[..|input|] == input;
      assert end + 1 == |input| ==> input == input[..end] + "\n";
    }
  }

  lemma WritePreserves(c: Client, write: WriteOutcome, jobs: map<nat, Job>)
    requires ClientOk(c, jobs)
    ensures var d := AfterWrite(c, write);
            && d.line.None? && d.client.id == c.id && d.client.requested == c.requested
            && (!d.close ==> ClientOk(d.client, jobs))
  {
    var d := AfterWrite(c, write).client;
    assert d.sent != c.sent ==> c.output[..c.sent] + c.output[c.sent..d.sent] == c.output[..d.sent];
  }

  /** Other connections are not affected by a change to the job of one. */
  lemma ClientOkFrame(c: Client, jobs: map<nat, Job>, jobs': map<nat, Job>)
    requires ClientOk(c, jobs) && (c.id in jobs <==> c.id in jobs') && (c.id in jobs ==> jobs[c.id] == jobs'[c.id])
    ensures ClientOk(c, jobs')
  {
  }

  lemma PostingPlaces(s: State, id: nat, line: string)
    requires JobsPlaced(s) && id !in s.jobs
    ensures JobsPlaced(Posting(s, id, Some(line)))
  {
    var t := Posting(s, id, Some(line));
    assert id !in multiset(s.queue);
    assert multiset(s.queue + [id]) == multiset(s.queue) + multiset{id};
    forall other <- t.jobs
      ensures Places(t, other) == 1 || (t.jobs[other].cancelled && Places(t, other) == 0)
    {
      if other != id {
        assert Places(t, other) == Places(s, other);
      }
    }
  }

  lemma CancellingPlaces(s: State, id: nat)
    requires JobsPlaced(s) && id in s.jobs
    ensures JobsPlaced(s.(jobs := s.jobs[id := s.jobs[id].(cancelled := true)]))
  {
    var t := s.(jobs := s.jobs[id := s.jobs[id].(cancelled := true)]);
    assert forall other <- t.jobs :: Places(t, other) == Places(s, other);
  }

  lemma ServeJobs(s: State, i: nat, seen: Seen)
    requires Sound(s) && Enabled(s, ServeClient(i, seen))
    ensures JobsPlaced(Apply(s, ServeClient(i, seen)))
  {
    var d := Serve(s.clients[i], seen);
    assert s.clients[i] in s.clients;
    ServePreserves(s.clients[i], seen, s.jobs);
    if d.line.Some? {
      PostingPlaces(s, d.client.id, d.line.value);
      JobsOnly(Posting(s, d.client.id, d.line), s.clients[i := d.client]);
    } else {
      if d.close && d.client.requested {
        CancellingPlaces(s, d.client.id);
        JobsOnly(s.(jobs := s.jobs[d.client.id := s.jobs[d.client.id].(cancelled := true)]),
                 s.clients[..i] + s.clients[i + 1..]);
      } else {
        JobsOnly(s, if d.close then s.clients[..i] + s.clients[i + 1..] else s.clients[i := d.client]);
      }
    }
  }

  /** Where the jobs are does not depend on the client table. */
  lemma JobsOnly(s: State, clients: seq<Client>)
    requires JobsPlaced(s)
    ensures JobsPlaced(s.(clients := clients))
  {
    var t := s.(clients := clients);
    assert forall id <- t.jobs :: Places(t, id) == Places(s, id);
  }

  lemma ExecutorJobs(s: State, e: Event)
    requires JobsPlaced(s) && Enabled(s, e) && ExecutorEvent(e)
    ensures JobsPlaced(Apply(s, e))
  {
    var t := Apply(s, e);
    if e.Dequeue? {
      assert s.queue == [s.queue[0]] + t.queue;
      assert multiset(s.queue) == multiset{s.queue[0]} + multiset(t.queue);
    }
    forall id <- t.jobs
      ensures Places(t, id) == 1 || (t.jobs[id].cancelled && Places(t, id) == 0)
    {
      assert Places(s, id) == 1 || (s.jobs[id].cancelled && Places(s, id) == 0);
    }
    if e.CheckCancelled? {
      assert Places(s, s.executor.id) == 1;
    }
  }

  lemma OtherClientOk(s: State, t: State, id: nat, j: nat)
    requires TableOk(s) && j < |s.clients| && s.clients[j].id != id
    requires forall other :: other != id ==> (other in t.jobs <==> other in s.jobs)
    requires forall other :: other != id && other in s.jobs ==> t.jobs[other] == s.jobs[other]
    ensures s.clients[j].id < s.nextId && ClientOk(s.clients[j], t.jobs)
  {
    assert s.clients[j] in s.clients;
    ClientOkFrame(s.clients[j], s.jobs, t.jobs);
  }

  lemma IdsStayOrdered(clients: seq<Client>, after: seq<Client>, i: nat, d: Client, close: bool)
    requires forall j, k :: 0 <= j < k < |clients| ==> clients[j].id < clients[k].id
    requires i < |clients| && d.id == clients[i].id
    requires after == if close then clients[..i] + clients[i + 1..] else clients[i := d]
    ensures forall j, k :: 0 <= j < k < |after| ==> after[j].id < after[k].id
    ensures close ==> forall k :: 0 <= k < |after| ==> after[k].id != d.id
  {
  }

  /** One connection was replaced or erased, and at most its own job changed. */
  ghost predicate OneServed(s: State, t: State, i: nat, d: Client, close: bool) {
    && i < |s.clients| && d.id == s.clients[i].id && t.nextId == s.nextId
    && t.clients == (if close then s.clients[..i] + s.clients[i + 1..] else s.clients[i := d])
    && (forall id :: id != d.id ==> (id in t.jobs <==> id in s.jobs))
    && (forall id :: id != d.id && id in s.jobs ==> t.jobs[id] == s.jobs[id])
    && (!close ==> ClientOk(d, t.jobs))
  }

  lemma ClientAfter(s: State, t: State, i: nat, d: Client, close: bool, k: nat)
    requires TableOk(s) && OneServed(s, t, i, d, close) && k < |t.clients|
    ensures t.clients[k].id < t.nextId && ClientOk(t.clients[k], t.jobs)
  {
    assert s.clients[i] in s.clients;
    if close || k != i {
      var j := if close && k >= i then k + 1 else k;
      assert t.clients[k] == s.clients[j];
      OtherClientOk(s, t, d.id, j);
    }
  }

  lemma TableAfter(s: State, t: State, i: nat, d: Client, close: bool)
    requires TableOk(s) && OneServed(s, t, i, d, close)
    ensures TableOk(t)
  {
    IdsStayOrdered(s.clients, t.clients, i, d, close);
    forall c <- t.clients
      ensures c.id < t.nextId && ClientOk(c, t.jobs)
    {
      var k :| 0 <= k < |t.clients| && t.clients[k] == c;
      ClientAfter(s, t, i, d, close, k);
    }
    assert s.clients[i] in s.clients;
    assert forall id <- t.jobs :: id == d.id || id in s.jobs;
  }

  lemma ServeTable(s: State, i: nat, seen: Seen)
    requires Sound(s) && Enabled(s, ServeClient(i, seen))
    ensures TableOk(Apply(s, ServeClient(i, seen)))
  {
    var d := Serve(s.clients[i], seen);
    assert s.clients[i] in s.clients;
    ServePreserves(s.clients[i], seen, s.jobs);
    TableAfter(s, Apply(s, ServeClient(i, seen)), i, d.client, d.close);
  }

  lemma ExecutorTable(s: State, e: Event)
    requires Sound(s) && Enabled(s, e) && ExecutorEvent(e)
    ensures TableOk(Apply(s, e))
  {
    var t := Apply(s, e);
    forall c <- t.clients ensures ClientOk(c, t.jobs) {
      assert ClientOk(c, s.jobs);
    }
  }

  lemma SoundStep(s: State, e: Event)
    requires Sound(s) && Enabled(s, e)
    ensures Sound(Apply(s, e))
  {
    match e {
      case Accept => AcceptSound(s);
      case ServeClient(i, seen) =>
        ServeJobs(s, i, seen);
        ServeTable(s, i, seen);
      case _ =>
        ExecutorJobs(s, e);
        ExecutorTable(s, e);
    }
  }

  lemma AcceptSound(s: State)
    requires Sound(s) && Enabled(s, Accept)
    ensures Sound(Apply(s, Accept))
  {
    var t := Apply(s, Accept);
    JobsOnly(s, t.clients);
    assert forall id <- t.jobs :: Places(t, id) == Places(s, id);
    assert s.nextId !in s.jobs;
    assert ClientOk(NewClient(s.nextId), s.jobs);
  }

  lemma {:induction false} SoundRuns(s: State, events: seq<Event>)
    requires Sound(s) && Legal(s, events)
    ensures Sound(Final(s, events))
    decreases |events|
  {
    if events != [] {
      SoundStep(s, events[0]);
      SoundRuns(Apply(s, events[0]), events[1..]);
    }
  }

  lemma ReachableIsSound(s: State)
    requires Reachable(s)
    ensures Sound(s)
  {
    var events :| Legal(Initial(), events) && Final(Initial(), events) == s;
    SoundRuns(Initial(), events);
  }

  // ---------------------------------------------------------------- the theorems

  /**
    Request conservation in every reachable state: queue and client table stay within 16; the job of a live
    connection is not cancelled and is in exactly one of the three places; the executor never runs a job
    that is already answered; and what a socket has taken is a prefix of that connection's own response.
   */
  lemma RequestConservation(s: State)
    requires Reachable(s)
    ensures |s.clients| <= MAX_CLIENTS && |s.queue| <= MAX_JOBS
    ensures forall c <- s.clients :: c.requested ==>
              && c.id in s.jobs && !s.jobs[c.id].cancelled && Places(s, c.id) == 1
              && c.input == s.jobs[c.id].line + "\n"
    ensures s.executor.Running? ==> s.executor.id in s.jobs && s.jobs[s.executor.id].answer.None?
    ensures forall c <- s.clients :: c.wire != "" ==>
              c.id in s.jobs && s.jobs[c.id].answer.Some? && c.wire <= s.jobs[c.id].answer.value
  {
    ReachableIsSound(s);
    forall c <- s.clients | c.requested
      ensures c.id in s.jobs && !s.jobs[c.id].cancelled && Places(s, c.id) == 1
    {
      assert ClientOk(c, s.jobs);
    }
  }

  /** A promise is never set twice and a request line never changes, whatever happens next. */
  lemma {:induction false} AnswersAreFinal(s: State, e: Event)
    requires Reachable(s) && Enabled(s, e)
    ensures var t := Apply(s, e);
            forall id <- s.jobs :: id in t.jobs && t.jobs[id].line == s.jobs[id].line
                                   && (s.jobs[id].answer.Some? ==> t.jobs[id].answer == s.jobs[id].answer)
  {
    ReachableIsSound(s);
    forall id <- s.jobs
      ensures var t := Apply(s, e);
              && id in t.jobs && t.jobs[id].line == s.jobs[id].line
              && (s.jobs[id].answer.Some? ==> t.jobs[id].answer == s.jobs[id].answer)
    {
      JobsOnlyProgress(s, e, id);
    }
  }

  // ---------------------------------------------------------------- no live client is stranded

  function IndexOf(queue: seq<nat>, id: nat): nat {
    if queue == [] || queue[0] == id then 0 else 1 + IndexOf(queue[1..], id)
  }

  /** How many executor events it takes at most until the executor rests. */
  function Busy(executor: Executor): nat {
    match executor
    case Resting => 0
    case Holding(_) => 2
    case Running(_) => 1
  }

  /** How many executor events it takes at most until the job is answered. */
  function Distance(s: State, id: nat): nat
    requires id in s.jobs
  {
    if s.jobs[id].answer.Some? then 0
    else if HeldBy(s.executor, id) == 1 then Busy(s.executor)
    else Busy(s.executor) + 3 * (IndexOf(s.queue, id) + 1)
  }

  lemma {:induction false} IndexOfBound(queue: seq<nat>, id: nat)
    requires id in queue
    ensures IndexOf(queue, id) < |queue|
    ensures forall more :: IndexOf(queue + more, id) == IndexOf(queue, id)
  {
    if queue[0] != id {
      IndexOfBound(queue[1..], id);
      forall more ensures IndexOf(queue + more, id) == IndexOf(queue, id) {
        assert (queue + more)[1..] == queue[1..] + more;
      }
    }
  }

  /** An unanswered, uncancelled job is in the queue or with the executor. */
  lemma Somewhere(s: State, id: nat)
    requires Sound(s) && id in s.jobs && !s.jobs[id].cancelled && s.jobs[id].answer.None?
    ensures HeldBy(s.executor, id) == 1 || id in s.queue
  {
    assert Places(s, id) == 1;
  }

  lemma ExecutorAdvances(s: State, e: Event, id: nat)
    requires Sound(s) && Enabled(s, e) && ExecutorEvent(e)
    requires id in s.jobs && !s.jobs[id].cancelled && s.jobs[id].answer.None?
    ensures Distance(Apply(s, e), id) < Distance(s, id)
  {
    Somewhere(s, id);
    assert Places(s, id) == 1;
    if e.Dequeue? && s.queue[0] != id {
      assert IndexOf(s.queue, id) == 1 + IndexOf(s.queue[1..], id);
    }
  }

  lemma ServingDoesNotDelay(s: State, e: Event, id: nat)
    requires Sound(s) && Enabled(s, e) && !ExecutorEvent(e) && id in s.jobs && !s.jobs[id].cancelled
    ensures var t := Apply(s, e); id in t.jobs && Distance(t, id) == Distance(s, id)
  {
    if e.ServeClient? {
      assert s.clients[e.i] in s.clients;
      ServePreserves(s.clients[e.i], e.seen, s.jobs);
      ServingKeepsPlace(s, e.i, e.seen, id);
      if s.jobs[id].answer.None? && HeldBy(s.executor, id) == 0 {
        Somewhere(s, id);
        IndexOfBound(s.queue, id);
      }
    }
  }

  /** Serving a connection keeps every job's answer and the executor, and at most appends to the queue. */
  lemma ServingKeepsPlace(s: State, i: nat, seen: Seen, id: nat)
    requires Sound(s) && Enabled(s, ServeClient(i, seen)) && id in s.jobs
    ensures var t := Apply(s, ServeClient(i, seen));
            && id in t.jobs && t.jobs[id].answer == s.jobs[id].answer && t.executor == s.executor
            && (t.queue == s.queue || exists more :: t.queue == s.queue + [more])
  {
    assert s.clients[i] in s.clients;
    ServePreserves(s.clients[i], seen, s.jobs);
    var d := Serve(s.clients[i], seen);
    assert d.line.Some? ==> d.client.id != id;
    assert Posting(s, d.client.id, d.line).queue in {s.queue, s.queue + [d.client.id]};
  }

  function ExecutorSteps(events: seq<Event>): nat {
    if events == [] then 0 else (if ExecutorEvent(events[0]) then 1 else 0) + ExecutorSteps(events[1..])
  }

  /** Cancellation and answers are for good. */
  lemma JobsOnlyProgress(s: State, e: Event, id: nat)
    requires Sound(s) && Enabled(s, e) && id in s.jobs
    ensures var t := Apply(s, e);
            && id in t.jobs && t.jobs[id].line == s.jobs[id].line
            && (s.jobs[id].cancelled ==> t.jobs[id].cancelled)
            && (s.jobs[id].answer.Some? ==> t.jobs[id].answer == s.jobs[id].answer)
  {
    if e.ServeClient? {
      assert s.clients[e.i] in s.clients;
      ServePreserves(s.clients[e.i], e.seen, s.jobs);
    }
  }

  lemma {:induction false} JobsOnlyProgressRuns(s: State, events: seq<Event>, id: nat)
    requires Legal(s, events) && Sound(s) && id in s.jobs
    ensures var t := Final(s, events);
            && id in t.jobs && (s.jobs[id].cancelled ==> t.jobs[id].cancelled)
            && (s.jobs[id].answer.Some? ==> t.jobs[id].answer == s.jobs[id].answer)
    decreases |events|
  {
    if events != [] {
      SoundStep(s, events[0]);
      JobsOnlyProgress(s, events[0], id);
      JobsOnlyProgressRuns(Apply(s, events[0]), events[1..], id);
    }
  }

  /** As long as its connection lives, a job is answered within Distance executor events. */
  lemma {:induction false} AnsweredInTime(s: State, events: seq<Event>, id: nat)
    requires Sound(s) && Legal(s, events) && id in s.jobs
    requires ExecutorSteps(events) >= Distance(s, id)
    requires id in Final(s, events).jobs && !Final(s, events).jobs[id].cancelled
    ensures Final(s, events).jobs[id].answer.Some?
    decreases |events|
  {
    JobsOnlyProgressRuns(s, events, id);
    if s.jobs[id].answer.None? {
      Somewhere(s, id);
      var e := events[0];
      var t := Apply(s, e);
      SoundStep(s, e);
      if ExecutorEvent(e) {
        ExecutorAdvances(s, e, id);
      } else {
        ServingDoesNotDelay(s, e, id);
      }
      AnsweredInTime(t, events[1..], id);
    }
  }

  /**
    No live client is stranded: from any reachable state, an unanswered request whose connection lives can
    always be advanced by the executor, and is answered after at most 50 executor events, whatever the
    poll loop does in between.
   */
  lemma NoClientStranded(s: State, i: nat)
    requires Reachable(s) && i < |s.clients| && s.clients[i].requested
    ensures var id := s.clients[i].id;
            && id in s.jobs
            && (s.jobs[id].answer.None? ==> exists e :: ExecutorEvent(e) && Enabled(s, e))
            && (forall events :: Legal(s, events) && ExecutorSteps(events) >= 50
                                 && id in Final(s, events).jobs && !Final(s, events).jobs[id].cancelled ==>
                  Final(s, events).jobs[id].answer.Some?)
  {
    ReachableIsSound(s);
    assert ClientOk(s.clients[i], s.jobs) by { assert s.clients[i] in s.clients; }
    var id := s.clients[i].id;
    if s.jobs[id].answer.None? {
      Somewhere(s, id);
      var e := match s.executor case Resting => Dequeue case Holding(_) => CheckCancelled case Running(_) => Answer("");
      assert ExecutorEvent(e) && Enabled(s, e);
      if id in s.queue {
        IndexOfBound(s.queue, id);
      }
    }
    assert Distance(s, id) <= 50;
    forall events | Legal(s, events) && ExecutorSteps(events) >= 50
                    && id in Final(s, events).jobs && !Final(s, events).jobs[id].cancelled
      ensures Final(s, events).jobs[id].answer.Some?
    {
      AnsweredInTime(s, events, id);
    }
  }

  // ---------------------------------------------------------------- what becomes of a job

  /** A request is queued behind the others if there is room for a sixteenth, and refused as busy otherwise. */
  lemma RequestPosted(s: State, i: nat, seen: Seen)
    requires Sound(s) && Enabled(s, ServeClient(i, seen)) && Serve(s.clients[i], seen).line.Some?
    ensures var t := Apply(s, ServeClient(i, seen)); var id := s.clients[i].id;
            && id !in s.jobs && id in t.jobs && t.jobs[id].line + "\n" == t.clients[i].input && !t.jobs[id].cancelled
            && (|s.queue| < 16 ==> t.queue == s.queue + [id] && t.jobs[id].answer.None?)
            && (|s.queue| >= 16 ==> t.queue == s.queue && t.jobs[id].answer == Some("ERR|Service busy|\n"))
  {
    assert s.clients[i] in s.clients;
    ServePreserves(s.clients[i], seen, s.jobs);
  }

  /** The executor's answer is kept as it is up to 256 KiB, and replaced beyond. */
  lemma AnswerKept(s: State, text: string)
    requires Enabled(s, Answer(text))
    ensures var t := Apply(s, Answer(text)); var id := s.executor.id;
            && t.executor.Resting? && t.queue == s.queue
            && t.jobs[id].answer == Some(if |text| <= 262144 then text else "ERR|Response too large|\n")
            && t.jobs[id].line == s.jobs[id].line && t.jobs[id].cancelled == s.jobs[id].cancelled
  {
  }

  ghost predicate Connected(s: State, id: nat) {
    exists j :: 0 <= j < |s.clients| && s.clients[j].id == id
  }

  ghost predicate OrphansCancelled(s: State) {
    forall id <- s.jobs :: Connected(s, id) || s.jobs[id].cancelled
  }

  lemma StaysConnected(s: State, t: State, i: nat, d: Client, close: bool, id: nat)
    requires OneServed(s, t, i, d, close) && Connected(s, id) && (close ==> id != d.id)
    ensures Connected(t, id)
  {
    var j :| 0 <= j < |s.clients| && s.clients[j].id == id;
    if close {
      assert j != i;
      assert t.clients[if j > i then j - 1 else j].id == id;
    } else {
      assert t.clients[j].id == id;
    }
  }

  lemma OrphansServed(s: State, t: State, i: nat, d: Client, close: bool)
    requires OrphansCancelled(s) && OneServed(s, t, i, d, close)
    requires close && d.id in t.jobs ==> t.jobs[d.id].cancelled
    ensures OrphansCancelled(t)
  {
    forall id <- t.jobs
      ensures Connected(t, id) || t.jobs[id].cancelled
    {
      if id == d.id {
        assert !close ==> t.clients[i].id == id;
      } else if !t.jobs[id].cancelled {
        StaysConnected(s, t, i, d, close, id);
      }
    }
  }

  lemma OrphansServe(s: State, i: nat, seen: Seen)
    requires Sound(s) && OrphansCancelled(s) && Enabled(s, ServeClient(i, seen))
    ensures OrphansCancelled(Apply(s, ServeClient(i, seen)))
  {
    assert s.clients[i] in s.clients;
    ServePreserves(s.clients[i], seen, s.jobs);
    var d := Serve(s.clients[i], seen);
    OrphansServed(s, Apply(s, ServeClient(i, seen)), i, d.client, d.close);
  }

  lemma OrphansStep(s: State, e: Event)
    requires Sound(s) && OrphansCancelled(s) && Enabled(s, e)
    ensures OrphansCancelled(Apply(s, e))
  {
    var t := Apply(s, e);
    if e.ServeClient? {
      OrphansServe(s, e.i, e.seen);
    } else {
      forall id <- t.jobs
        ensures Connected(t, id) || t.jobs[id].cancelled
      {
        assert id in s.jobs && t.jobs[id].cancelled == s.jobs[id].cancelled;
        if Connected(s, id) {
          var j :| 0 <= j < |s.clients| && s.clients[j].id == id;
          assert t.clients[j].id == id;
        }
      }
    }
  }

  lemma {:induction false} OrphansRuns(s: State, events: seq<Event>)
    requires Sound(s) && OrphansCancelled(s) && Legal(s, events)
    ensures OrphansCancelled(Final(s, events))
    decreases |events|
  {
    if events != [] {
      OrphansStep(s, events[0]);
      SoundStep(s, events[0]);
      OrphansRuns(Apply(s, events[0]), events[1..]);
    }
  }

  /** In every reachable state a job is cancelled if and only if its connection is gone. */
  lemma {:induction false} CancelledExactly(s: State, id: nat)
    requires Reachable(s) && id in s.jobs
    ensures s.jobs[id].cancelled <==> !Connected(s, id)
  {
    var events :| Legal(Initial(), events) && Final(Initial(), events) == s;
    OrphansRuns(Initial(), events);
    ReachableIsSound(s);
    if Connected(s, id) {
      var j :| 0 <= j < |s.clients| && s.clients[j].id == id;
      assert s.clients[j] in s.clients && ClientOk(s.clients[j], s.jobs);
    }
  }

  /** A job cancelled before the executor began with it is never carried out. */
  lemma {:induction false} CancelledIsSkipped(s: State, events: seq<Event>, id: nat)
    requires Reachable(s) && Legal(s, events)
    requires id in s.jobs && s.jobs[id].cancelled && s.jobs[id].answer.None? && s.executor != Running(id)
    ensures var t := Final(s, events); id in t.jobs && t.jobs[id].answer.None? && t.executor != Running(id)
  {
    ReachableIsSound(s);
    SkippedRuns(s, events, id);
  }

  lemma {:induction false} SkippedRuns(s: State, events: seq<Event>, id: nat)
    requires Sound(s) && Legal(s, events)
    requires id in s.jobs && s.jobs[id].cancelled && s.jobs[id].answer.None? && s.executor != Running(id)
    ensures var t := Final(s, events); id in t.jobs && t.jobs[id].answer.None? && t.executor != Running(id)
    decreases |events|
  {
    if events != [] {
      var e := events[0];
      SoundStep(s, e);
      JobsOnlyProgress(s, e, id);
      if e.ServeClient? {
        ServingKeepsPlace(s, e.i, e.seen, id);
      }
      SkippedRuns(Apply(s, e), events[1..], id);
    }
  }
}
