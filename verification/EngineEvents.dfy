/**
 The engine's bounded event queue, which drops its oldest event when full, and the client actor
 that must notice such losses.  Requests are numbered by the engine; the continuation of a
 waiting command is identified with its request.
 */
module EngineEvents {
  import opened Common

  datatype EventKind =
    | TorrentAdded | MetadataReady | TorrentError | StreamPrepared
    | StreamStopped | DiskCacheReclaimed | TorrentRemoved

  datatype Event = Event(sequence: nat, requestId: nat, kind: EventKind, dropped: nat)

  // ----- the queue -----

  type Capacity = n: nat | n >= 1 witness 1

  datatype Queue = Queue(events: seq<Event>, nextSequence: nat, dropped: nat, capacity: Capacity)

  function Push(q: Queue, requestId: nat, kind: EventKind): Queue {
    var full := |q.events| >= q.capacity;
    var kept := if full then q.events[1..] else q.events;
    var dropped := if full then q.dropped + 1 else q.dropped;
    Queue(kept + [Event(q.nextSequence, requestId, kind, dropped)], q.nextSequence + 1, dropped, q.capacity)
  }

  function Polled(q: Queue): Queue
    requires q.events != []
  {
    q.(events := q.events[1..])
  }

  // ----- the client -----

  /** What the task of a command is resumed with: its event, or one of the errors. */
  datatype Outcome =
    | Returned(event: Event) | Refused(event: Event)
    | Lost | Cancelled | PollingFailed | Closed

  /** A waiting command maps its request to the event kind that completes it. */
  datatype Client = Client(
    pending: map<nat, EventKind>, lastDropped: nat, failed: bool, open: bool,
    resumed: multiset<nat>, outcomes: map<nat, Outcome>)

  predicate Completes(e: Event, requestId: nat, expected: EventKind) {
    e.requestId == requestId && (e.kind == TorrentError || e.kind == expected)
  }

  function SameFor(requests: set<nat>, outcome: Outcome): map<nat, Outcome> {
    map r | r in requests :: outcome
  }

  /** Nobody waits any longer, and the requests of `done` are resumed with the error. */
  function FailSome(c: Client, done: set<nat>, error: Outcome): Client {
    c.(pending := map[], resumed := c.resumed + multiset(done), outcomes := c.outcomes + SameFor(done, error))
  }

  /** Every waiting command is resumed with an error. */
  function FailPending(c: Client, error: Outcome): Client {
    FailSome(c, c.pending.Keys, error)
  }

  function FailPolling(c: Client): Client {
    FailPending(c.(failed := true), PollingFailed)
  }

  function Close(c: Client): Client {
    FailPending(c, Closed).(open := false)
  }

  function Resume(c: Client, requestId: nat, outcome: Outcome): Client {
    c.(pending := c.pending - {requestId}, resumed := c.resumed + multiset{requestId},
       outcomes := c.outcomes[requestId := outcome])
  }

  function Process(c: Client, e: Event): Client {
    var c' := if e.dropped > c.lastDropped then FailPending(c.(lastDropped := e.dropped), Lost) else c;
    if e.requestId != 0 && e.requestId in c'.pending && Completes(e, e.requestId, c'.pending[e.requestId])
    then Resume(c', e.requestId, if e.kind == TorrentError then Refused(e) else Returned(e)) else c'
  }

  function Cancel(c: Client, requestId: nat): Client {
    if requestId in c.pending then Resume(c, requestId, Cancelled) else c
  }

  /** Registers an accepted request, unless its task is already cancelled. */
  function Await(c: Client, requestId: nat, expected: EventKind, cancelled: bool): Client {
    if cancelled then c.(resumed := c.resumed + multiset{requestId}, outcomes := c.outcomes[requestId := Cancelled])
    else c.(pending := c.pending[requestId := expected])
  }

  predicate Usable(c: Client) {
    c.open && !c.failed
  }

  // ----- the two together -----

  /** What is known of a request from outside: its kind, the events seen before it, and before its cancellation. */
  datatype Asked = Asked(expected: EventKind, since: nat, cancelledAt: Option<nat>)

  datatype System = System(
    queue: Queue, pushed: seq<Event>, polled: nat, nextRequestId: nat, client: Client,
    seen: seq<Event>,         // the events the client has polled and could read
    asked: map<nat, Asked>)   // the accepted requests

  /** Notes the first cancellation of a request while the client is usable. */
  function WithCancelled(s: System, requestId: nat): map<nat, Asked> {
    if Usable(s.client) && requestId in s.asked && s.asked[requestId].cancelledAt == None
    then s.asked[requestId := s.asked[requestId].(cancelledAt := Some(|s.seen|))]
    else s.asked
  }

  datatype Step =
    | PushEvent(requestId: nat, kind: EventKind)
    | PollEvent(malformed: bool)
    | PollError
    | Submit(expected: EventKind, accepted: bool, cancelled: bool)
    | CancelTask(requestId: nat)
    | Shutdown

  predicate Enabled(s: System, step: Step) {
    step.PushEvent? ==> step.requestId < s.nextRequestId
  }

  function Next(s: System, step: Step): System {
    match step
    case PushEvent(requestId, kind) =>
      var q := Push(s.queue, requestId, kind);
      s.(queue := q, pushed := s.pushed + [q.events[|q.events| - 1]])
    case PollEvent(malformed) =>
      if !Usable(s.client) || s.queue.events == [] then s
      else
        s.(queue := Polled(s.queue), polled := s.polled + 1,
           seen := if malformed then s.seen else s.seen + [s.queue.events[0]],
           client := if malformed then FailPolling(s.client) else Process(s.client, s.queue.events[0]))
    case PollError => if Usable(s.client) then s.(client := FailPolling(s.client)) else s
    case Submit(expected, accepted, cancelled) =>
      if Usable(s.client) && accepted
      then s.(nextRequestId := s.nextRequestId + 1,
              asked := s.asked[s.nextRequestId :=
                Asked(expected, |s.seen|, if cancelled then Some(|s.seen|) else None)],
              client := Await(s.client, s.nextRequestId, expected, cancelled))
      else s
    case CancelTask(requestId) => s.(client := Cancel(s.client, requestId), asked := WithCancelled(s, requestId))
    case Shutdown => s.(client := Close(s.client))
  }

  function Start(capacity: Capacity): System {
    System(Queue([], 1, 0, capacity), [], 0, 1, Client(map[], 0, false, true, multiset{}, map[]), [], map[])
  }

  ghost predicate IsRun(capacity: Capacity, steps: seq<Step>) {
    steps == [] || (IsRun(capacity, steps[..|steps| - 1])
                    && Enabled(After(capacity, steps[..|steps| - 1]), steps[|steps| - 1]))
  }

  ghost function After(capacity: Capacity, steps: seq<Step>): System {
    if steps == [] then Start(capacity)
    else Next(After(capacity, steps[..|steps| - 1]), steps[|steps| - 1])
  }

  // ----- what every step keeps -----

  /** Posted events are numbered from 1, answer known requests, and the last one tells the drop count. */
  ghost predicate HistorySound(pushed: seq<Event>, dropped: nat, nextRequestId: nat) {
    && (forall i :: 0 <= i < |pushed| ==> pushed[i].sequence == i + 1)
    && (forall i :: 0 <= i < |pushed| ==> pushed[i].requestId < nextRequestId)
    && (forall i :: 0 <= i < |pushed| ==> pushed[i].dropped <= dropped)
    && (if pushed == [] then dropped == 0 else pushed[|pushed| - 1].dropped == dropped)
  }

  ghost predicate QueueSound(s: System) {
    var q := s.queue;
    && |q.events| <= q.capacity
    && s.polled + |q.events| + q.dropped == |s.pushed|
    && q.events == s.pushed[|s.pushed| - |q.events|..]
    && q.nextSequence == |s.pushed| + 1
    && HistorySound(s.pushed, q.dropped, s.nextRequestId)
  }

  /** Nothing the client waits for has gone by unseen. */
  ghost predicate NothingMissed(s: System) {
    forall r, i ::
      r in s.client.pending && 0 <= i < |s.pushed| - |s.queue.events| ==>
      Completes(s.pushed[i], r, s.client.pending[r]) ==> s.client.lastDropped < s.queue.dropped
  }

  ghost predicate ClientSound(s: System) {
    var c := s.client;
    && (!Usable(c) ==> c.pending == map[])
    && c.lastDropped <= s.queue.dropped
    && (Usable(c) && s.queue.events == [] ==> c.lastDropped == s.queue.dropped)
    && s.nextRequestId >= 1
    && (forall r :: r in c.pending ==> 1 <= r < s.nextRequestId && c.resumed[r] == 0)
    && (forall r :: 1 <= r < s.nextRequestId && r !in c.pending ==> c.resumed[r] == 1)
    && (forall r :: !(1 <= r < s.nextRequestId) ==> c.resumed[r] == 0)
  }

  ghost predicate Sound(s: System) {
    QueueSound(s) && ClientSound(s) && NothingMissed(s)
  }

  /** The queue stays a suffix of the history, whether or not its oldest event is dropped. */
  lemma SuffixGrows<T>(history: seq<T>, k: nat, x: T, drop: bool)
    requires k <= |history| && (drop ==> k < |history|)
    ensures var kept := if drop then history[k..][1..] else history[k..];
      kept + [x] == (history + [x])[(if drop then k + 1 else k)..]
  {
  }

  lemma HistoryGrows(pushed: seq<Event>, dropped: nat, nextRequestId: nat, e: Event)
    requires HistorySound(pushed, dropped, nextRequestId)
    requires e.sequence == |pushed| + 1 && e.requestId < nextRequestId && dropped <= e.dropped
    ensures HistorySound(pushed + [e], e.dropped, nextRequestId)
  {
    var p := pushed + [e];
    forall i | 0 <= i < |p|
      ensures p[i].sequence == i + 1 && p[i].requestId < nextRequestId && p[i].dropped <= e.dropped
    {
      assert i < |pushed| ==> p[i] == pushed[i];
    }
  }

  lemma PushKeepsQueue(s: System, requestId: nat, kind: EventKind)
    requires QueueSound(s) && requestId < s.nextRequestId
    ensures QueueSound(Next(s, PushEvent(requestId, kind)))
  {
    var q, q' := s.queue, Push(s.queue, requestId, kind);
    var k := |s.pushed| - |q.events|;
    var e := Event(q.nextSequence, requestId, kind, q'.dropped);
    HistoryGrows(s.pushed, q.dropped, s.nextRequestId, e);
    SuffixGrows(s.pushed, k, e, |q.events| >= q.capacity);
    var s' := Next(s, PushEvent(requestId, kind));
    assert s'.pushed == s.pushed + [e];
    assert |q'.events| == |q.events| + (if |q.events| >= q.capacity then 0 else 1);
  }

  lemma PushKeepsClient(s: System, requestId: nat, kind: EventKind)
    requires Sound(s) && requestId < s.nextRequestId
    ensures ClientSound(Next(s, PushEvent(requestId, kind))) && NothingMissed(Next(s, PushEvent(requestId, kind)))
  {
    var s' := Next(s, PushEvent(requestId, kind));
    var gone, gone' := |s.pushed| - |s.queue.events|, |s'.pushed| - |s'.queue.events|;
    forall r, i | r in s'.client.pending && 0 <= i < gone' && Completes(s'.pushed[i], r, s'.client.pending[r])
      ensures s'.client.lastDropped < s'.queue.dropped
    {
      if i < gone {
        assert s'.pushed[i] == s.pushed[i];
      }
    }
  }

  lemma PollKeepsQueue(s: System, malformed: bool)
    requires QueueSound(s)
    ensures QueueSound(Next(s, PollEvent(malformed)))
  {
    if Usable(s.client) && s.queue.events != [] {
      assert s.queue.events[1..] == s.pushed[|s.pushed| - |s.queue.events| + 1..];
    }
  }

  lemma FailPendingKeepsCounts(c: Client, error: Outcome, r: nat)
    requires r in c.pending ==> c.resumed[r] == 0
    ensures FailPending(c, error).resumed[r] == if r in c.pending then 1 else c.resumed[r]
  {
  }

  lemma PollKeepsClient(s: System)
    requires Sound(s) && Usable(s.client) && s.queue.events != []
    ensures ClientSound(Next(s, PollEvent(false))) && NothingMissed(Next(s, PollEvent(false)))
  {
    var s' := Next(s, PollEvent(false));
    var c, c', e := s.client, s'.client, s.queue.events[0];
    var gone := |s.pushed| - |s.queue.events|;
    assert s.pushed[gone] == e;
    assert s.queue.events[|s.queue.events| - 1] == s.pushed[|s.pushed| - 1];
    if e.dropped > c.lastDropped {
      assert c'.pending == map[];
      forall r ensures c'.resumed[r] == if r in c.pending then 1 else c.resumed[r] {
        FailPendingKeepsCounts(c, Lost, r);
      }
    } else {
      forall r, i | r in c'.pending && 0 <= i < gone + 1 && Completes(s.pushed[i], r, c'.pending[r])
        ensures c'.lastDropped < s'.queue.dropped
      {
        assert r in c.pending;
        assert i < gone;
      }
    }
  }

  lemma StepKeepsSound(s: System, step: Step)
    requires Sound(s) && Enabled(s, step)
    ensures Sound(Next(s, step))
  {
    match step
    case PushEvent(requestId, kind) =>
      PushKeepsQueue(s, requestId, kind);
      PushKeepsClient(s, requestId, kind);
    case PollEvent(malformed) =>
      PollKeepsQueue(s, malformed);
      if Usable(s.client) && s.queue.events != [] {
        if malformed {
          FailedKeepsSound(s, FailPolling(s.client));
        } else {
          PollKeepsClient(s);
        }
      }
    case PollError =>
      FailedKeepsSound(s, FailPolling(s.client));
    case Submit(expected, accepted, cancelled) =>
      if Usable(s.client) && accepted {
        SubmitKeepsSound(s, expected, cancelled);
      }
    case CancelTask(requestId) =>
      CancelKeepsSound(s, requestId);
    case Shutdown =>
      FailedKeepsSound(s, Close(s.client));
  }

  lemma FailedKeepsSound(s: System, c: Client)
    requires Sound(s) && (c == FailPolling(s.client) || c == Close(s.client))
    ensures Sound(s.(client := c))
  {
    forall r ensures c.resumed[r] == if r in s.client.pending then 1 else s.client.resumed[r] {
      FailPendingKeepsCounts(s.client, Closed, r);
    }
  }

  lemma CancelKeepsSound(s: System, requestId: nat)
    requires Sound(s)
    ensures Sound(Next(s, CancelTask(requestId)))
  {
  }

  lemma SubmitKeepsSound(s: System, expected: EventKind, cancelled: bool)
    requires Sound(s) && Usable(s.client)
    ensures Sound(Next(s, Submit(expected, true, cancelled)))
  {
    var s' := Next(s, Submit(expected, true, cancelled));
    forall r, i | r in s'.client.pending && 0 <= i < |s'.pushed| - |s'.queue.events|
      ensures Completes(s'.pushed[i], r, s'.client.pending[r]) ==> s'.client.lastDropped < s'.queue.dropped
    {
      assert r == s.nextRequestId || r in s.client.pending;
    }
  }

  lemma {:induction false} RunsAreSound(capacity: Capacity, steps: seq<Step>)
    requires IsRun(capacity, steps)
    ensures Sound(After(capacity, steps))
  {
    if steps != [] {
      RunsAreSound(capacity, steps[..|steps| - 1]);
      StepKeepsSound(After(capacity, steps[..|steps| - 1]), steps[|steps| - 1]);
    }
  }

  /** The queued events have consecutive numbers up to the newest, which tells the drop count. */
  lemma QueuedAreNewest(s: System)
    requires QueueSound(s)
    ensures forall i :: 0 <= i < |s.queue.events| ==>
      s.queue.events[i].sequence == |s.pushed| - |s.queue.events| + i + 1
    ensures s.queue.events != [] ==> s.queue.events[|s.queue.events| - 1].dropped == s.queue.dropped
  {
    var k := |s.pushed| - |s.queue.events|;
    forall i | 0 <= i < |s.queue.events| ensures s.queue.events[i] == s.pushed[k + i] {
    }
  }

  /** Events are conserved, queued ones are the newest with consecutive numbers, the newest tells the drop count. */
  lemma ConservationTheorem(capacity: Capacity, steps: seq<Step>)
    requires IsRun(capacity, steps)
    ensures var s := After(capacity, steps);
      && s.polled + |s.queue.events| + s.queue.dropped == |s.pushed|
      && |s.queue.events| <= capacity
      && (forall i :: 0 <= i < |s.queue.events| ==>
          s.queue.events[i].sequence == |s.pushed| - |s.queue.events| + i + 1)
      && (s.queue.events != [] ==> s.queue.events[|s.queue.events| - 1].dropped == s.queue.dropped)
  {
    RunsAreSound(capacity, steps);
    CapacityFixed(capacity, steps);
    QueuedAreNewest(After(capacity, steps));
  }

  lemma {:induction false} CapacityFixed(capacity: Capacity, steps: seq<Step>)
    ensures After(capacity, steps).queue.capacity == capacity
  {
    if steps != [] {
      CapacityFixed(capacity, steps[..|steps| - 1]);
    }
  }

  /** A client that has emptied the queue waits for no command whose completion was ever posted. */
  lemma DrainedClientTheorem(capacity: Capacity, steps: seq<Step>)
    requires IsRun(capacity, steps)
    ensures var s := After(capacity, steps);
      s.queue.events == [] ==>
        forall r, i :: r in s.client.pending && 0 <= i < |s.pushed| ==> !Completes(s.pushed[i], r, s.client.pending[r])
  {
    RunsAreSound(capacity, steps);
  }

  /** Each accepted request is resumed exactly once or still waits; nothing else is ever resumed. */
  lemma ResumedOnceTheorem(capacity: Capacity, steps: seq<Step>, r: nat)
    requires IsRun(capacity, steps)
    ensures var s := After(capacity, steps);
      s.client.resumed[r] ==
      if 1 <= r < s.nextRequestId && r !in s.client.pending then 1 else 0
  {
    RunsAreSound(capacity, steps);
  }

  /** After a failure or a shutdown nobody waits. */
  lemma NobodyWaitsOnDeadClient(capacity: Capacity, steps: seq<Step>)
    requires IsRun(capacity, steps) && !Usable(After(capacity, steps).client)
    ensures After(capacity, steps).client.pending == map[]
  {
    RunsAreSound(capacity, steps);
  }

  // ----- the runtime object -----

  datatype Status = Ok | Stopping | QueueFull | NoEvent

  class EngineRuntime {
    const commandCapacity: nat
    const eventCapacity: Capacity
    var commands: seq<nat>
    var nextRequestId: nat
    var stopping: bool
    var events: seq<Event>
    var nextSequence: nat
    var droppedEvents: nat
    ghost var accepted: seq<nat>
    ghost var processed: seq<nat>

    /** Commands are numbered from 1 and handed to the backend in the order they were accepted. */
    ghost predicate Valid()
      reads this
    {
      && nextRequestId == |accepted| + 1
      && (forall i :: 0 <= i < |accepted| ==> accepted[i] == i + 1)
      && accepted == processed + commands
      && |commands| <= commandCapacity
    }

    ghost function EventQueue(): Queue
      reads this
    {
      Queue(events, nextSequence, droppedEvents, eventCapacity)
    }

    constructor (commandCapacity: nat, eventCapacity: Capacity)
      ensures Valid() && accepted == [] && !stopping && EventQueue() == Start(eventCapacity).queue
    {
      this.commandCapacity, this.eventCapacity := commandCapacity, eventCapacity;
      commands, nextRequestId, stopping := [], 1, false;
      events, nextSequence, droppedEvents := [], 1, 0;
      accepted, processed := [], [];
    }

    method Enqueue() returns (status: Status, requestId: nat)
      requires Valid()
      modifies this
      ensures Valid() && EventQueue() == old(EventQueue()) && stopping == old(stopping) && processed == old(processed)
      ensures status == if old(stopping) then Stopping
                        else if |old(commands)| >= commandCapacity then QueueFull else Ok
      ensures status == Ok ==> requestId == old(nextRequestId) && accepted == old(accepted) + [requestId]
      ensures status != Ok ==> accepted == old(accepted)
    {
      requestId := 0;
      if stopping {
        return Stopping, 0;
      }
      if |commands| >= commandCapacity {
        return QueueFull, 0;
      }
      requestId := nextRequestId;
      commands := commands + [requestId];
      accepted := accepted + [requestId];
      nextRequestId := nextRequestId + 1;
      status := Ok;
    }

    method Stop()
      requires Valid()
      modifies this
      ensures Valid() && stopping && accepted == old(accepted) && processed == old(processed)
      ensures EventQueue() == old(EventQueue())
    {
      stopping := true;
    }

    /**
     One turn of the worker: the next command, or the decision to shut down, which is only taken
     when every accepted command has been processed.  A command the backend refuses is answered
     by one error event carrying its request.
     */
    method WorkerTurn(refuses: bool, posted: seq<(nat, EventKind)>) returns (shutdown: bool)
      requires Valid()
      modifies this
      ensures Valid() && accepted == old(accepted) && stopping == old(stopping)
      ensures shutdown <==> old(stopping) && old(commands) == []
      ensures shutdown ==> processed == accepted && EventQueue() == old(EventQueue())
      ensures !shutdown ==>
        && processed == old(processed) + (if old(commands) == [] then [] else [old(commands)[0]])
        && EventQueue() == PushAll(if old(commands) != [] && refuses
                                   then Push(old(EventQueue()), old(commands)[0], TorrentError)
                                   else old(EventQueue()), posted)
    {
      if commands != [] {
        var requestId := commands[0];
        assert processed + commands == (processed + [requestId]) + commands[1..];
        commands := commands[1..];
        processed := processed + [requestId];
        if refuses {
          PostEvent(requestId, TorrentError);
        }
      } else if stopping {
        return true;
      }
      ghost var q := EventQueue();
      for i := 0 to |posted|
        invariant Valid() && accepted == old(accepted) && stopping == old(stopping)
        invariant processed == old(processed) + (if old(commands) == [] then [] else [old(commands)[0]])
        invariant PushAll(EventQueue(), posted[i..]) == PushAll(q, posted)
      {
        assert posted[i..][1..] == posted[i + 1..];
        PostEvent(posted[i].0, posted[i].1);
      }
      shutdown := false;
    }

    method PostEvent(requestId: nat, kind: EventKind)
      requires Valid()
      modifies this`events, this`nextSequence, this`droppedEvents
      ensures EventQueue() == Push(old(EventQueue()), requestId, kind)
    {
      var sequence := nextSequence;
      nextSequence := nextSequence + 1;
      if |events| >= eventCapacity {
        events := events[1..];
        droppedEvents := droppedEvents + 1;
      }
      events := events + [Event(sequence, requestId, kind, droppedEvents)];
    }

    method TakeEvent() returns (event: Option<Event>)
      requires Valid()
      modifies this`events
      ensures old(events) == [] ==> event == None && EventQueue() == old(EventQueue())
      ensures old(events) != [] ==> event == Some(old(events)[0]) && EventQueue() == Polled(old(EventQueue()))
    {
      if events == [] {
        return None;
      }
      event := Some(events[0]);
      events := events[1..];
    }
  }

  function PushAll(q: Queue, posted: seq<(nat, EventKind)>): Queue
    decreases |posted|
  {
    if posted == [] then q else PushAll(Push(q, posted[0].0, posted[0].1), posted[1..])
  }

  // ----- the client object -----

  lemma FailNone(c: Client, error: Outcome)
    ensures FailSome(c, {}, error) == c.(pending := map[])
  {
    var none: set<nat> := {};
    assert multiset(none) == multiset{};
  }

  lemma FailOneMore(c: Client, done: set<nat>, error: Outcome, r: nat)
    requires r !in done
    ensures var c' := FailSome(c, done, error);
      FailSome(c, done + {r}, error) == c'.(resumed := c'.resumed + multiset{r}, outcomes := c'.outcomes[r := error])
  {
    assert multiset(done + {r}) == multiset(done) + multiset{r};
    assert SameFor(done + {r}, error) == SameFor(done, error)[r := error];
  }

  class EngineClient {
    var pendingCommands: map<nat, EventKind>
    var lastDroppedEvents: nat
    var pollingFailed: bool
    var handleOpen: bool
    var resumed: multiset<nat>
    var outcomes: map<nat, Outcome>

    ghost function State(): Client
      reads this
    {
      Client(pendingCommands, lastDroppedEvents, pollingFailed, handleOpen, resumed, outcomes)
    }

    constructor ()
      ensures State() == Start(1).client
    {
      pendingCommands, lastDroppedEvents, pollingFailed, handleOpen := map[], 0, false, true;
      resumed, outcomes := multiset{}, map[];
    }

    /** Resumes the task of a command. */
    method ResumeWith(requestId: nat, outcome: Outcome)
      modifies this`resumed, this`outcomes
      ensures resumed == old(resumed) + multiset{requestId} && outcomes == old(outcomes)[requestId := outcome]
    {
      resumed := resumed + multiset{requestId};
      outcomes := outcomes[requestId := outcome];
    }

    method FailOne(requestId: nat, error: Outcome, ghost c: Client, ghost done: set<nat>)
      requires State() == FailSome(c, done, error) && requestId !in done
      modifies this`resumed, this`outcomes
      ensures State() == FailSome(c, done + {requestId}, error)
    {
      FailOneMore(c, done, error, requestId);
      ResumeWith(requestId, error);
    }

    method FailEach(commands: set<nat>, error: Outcome, ghost c: Client)
      requires State() == c.(pending := map[])
      modifies this`resumed, this`outcomes
      ensures State() == FailSome(c, commands, error)
    {
      var left := commands;
      ghost var done: set<nat> := {};
      FailNone(c, error);
      while left != {}
        invariant State() == FailSome(c, done, error)
        invariant done + left == commands && done !! left
        decreases |left|
      {
        var requestId :| requestId in left;
        FailOne(requestId, error, c, done);
        left, done := left - {requestId}, done + {requestId};
      }
      assert done == commands;
    }

    method FailAllPending(error: Outcome)
      modifies this`pendingCommands, this`resumed, this`outcomes
      ensures State() == FailPending(old(State()), error)
    {
      var commands := pendingCommands.Keys;
      pendingCommands := map[];
      FailEach(commands, error, old(State()));
    }

    method Handle(event: Event)
      modifies this
      ensures State() == Process(old(State()), event)
    {
      if event.dropped > lastDroppedEvents {
        lastDroppedEvents := event.dropped;
        FailAllPending(Lost);
      }
      if event.requestId == 0 || event.requestId !in pendingCommands {
        return;
      }
      if event.kind == TorrentError {
        pendingCommands := pendingCommands - {event.requestId};
        ResumeWith(event.requestId, Refused(event));
      } else if event.kind == pendingCommands[event.requestId] {
        pendingCommands := pendingCommands - {event.requestId};
        ResumeWith(event.requestId, Returned(event));
      }
    }

    method AwaitCommand(requestId: nat, expected: EventKind, taskCancelled: bool)
      modifies this
      ensures State() == Await(old(State()), requestId, expected, taskCancelled)
    {
      if taskCancelled {
        ResumeWith(requestId, Cancelled);
        return;
      }
      pendingCommands := pendingCommands[requestId := expected];
    }

    method CancelPending(requestId: nat)
      modifies this
      ensures State() == Cancel(old(State()), requestId)
    {
      if requestId in pendingCommands {
        pendingCommands := pendingCommands - {requestId};
        ResumeWith(requestId, Cancelled);
      }
    }

    method Fail()
      modifies this
      ensures State() == FailPolling(old(State()))
    {
      pollingFailed := true;
      FailAllPending(PollingFailed);
    }

    method Shut()
      modifies this
      ensures State() == Close(old(State()))
    {
      FailAllPending(Closed);
      handleOpen := false;
    }
  }
}
