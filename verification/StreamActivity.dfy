/**
 Which streams are in use.  HTTP requests take and return a lease on their stream's activity
 record; the engine's expiry scan removes routes that have been unused for the whole timeout.
 The scan reads the clock first and holds the routes lock, so no request starts during it, but
 requests may end and time may pass between any two of its steps.
 */
module StreamActivity {
  import opened Common

  /** Requests in progress, and when the last of them ended. */
  datatype Activity = Activity(requests: nat, last: nat)

  function Acquired(a: Activity): Activity {
    a.(requests := a.requests + 1)
  }

  function Released(a: Activity, now: nat): Activity {
    if a.requests == 0 then a
    else if a.requests == 1 then Activity(0, now)
    else a.(requests := a.requests - 1)
  }

  predicate IsInactive(a: Activity, now: nat, timeout: nat) {
    a.requests == 0 && now - a.last >= timeout
  }

  datatype Scan = NoScan | Starting(at: nat) | Scanning(at: nat, todo: set<nat>)

  datatype State = State(
    now: nat,
    timeout: nat,                     // 0 disables expiry
    routes: set<nat>,
    activity: map<nat, Activity>,     // of every stream ever registered
    open: map<nat, nat>,              // requests in progress and their streams
    ended: map<nat, nat>,             // when each stream was registered or last lost a request
    demanded: set<nat>,               // streams with an active demand
    scan: Scan)

  datatype Step =
    | Tick(delay: nat)
    | Register(stream: nat)
    | Retire(stream: nat)
    | Demand(streams: set<nat>)
    | OpenRequest(request: nat, stream: nat)
    | CloseRequest(request: nat)
    | BeginScan
    | LockRoutes
    | ScanRoute(stream: nat)
    | EndScan

  /** The routes lock is free. */
  predicate Unlocked(s: State) {
    !s.scan.Scanning?
  }

  predicate Expires(s: State, stream: nat) {
    && s.scan.Scanning? && stream in s.scan.todo && stream !in s.demanded
    && stream in s.activity && IsInactive(s.activity[stream], s.scan.at, s.timeout)
  }

  function Next(s: State, step: Step): State {
    match step
    case Tick(delay) => s.(now := s.now + delay)
    case Register(stream) =>
      if s.scan != NoScan || stream in s.activity then s
      else s.(routes := s.routes + {stream}, activity := s.activity[stream := Activity(0, s.now)],
              ended := s.ended[stream := s.now])
    case Retire(stream) => if s.scan != NoScan then s else s.(routes := s.routes - {stream})
    case Demand(streams) => if s.scan != NoScan then s else s.(demanded := streams)
    case OpenRequest(request, stream) =>
      if !Unlocked(s) || request in s.open || stream !in s.routes || stream !in s.activity then s
      else s.(activity := s.activity[stream := Acquired(s.activity[stream])], open := s.open[request := stream])
    case CloseRequest(request) =>
      if request !in s.open || s.open[request] !in s.activity then s
      else
        var stream := s.open[request];
        s.(activity := s.activity[stream := Released(s.activity[stream], s.now)],
           open := s.open - {request}, ended := s.ended[stream := s.now])
    case BeginScan => if s.scan != NoScan || s.timeout == 0 then s else s.(scan := Starting(s.now))
    case LockRoutes => if !s.scan.Starting? then s else s.(scan := Scanning(s.scan.at, s.routes))
    case ScanRoute(stream) =>
      if !s.scan.Scanning? then s
      else s.(scan := Scanning(s.scan.at, s.scan.todo - {stream}),
              routes := if Expires(s, stream) then s.routes - {stream} else s.routes)
    case EndScan => if !s.scan.Scanning? || s.scan.todo != {} then s else s.(scan := NoScan)
  }

  function Run(s: State, steps: seq<Step>): State
    decreases |steps|
  {
    if steps == [] then s else Run(Next(s, steps[0]), steps[1..])
  }

  // ----- the invariant -----

  function RequestsOn(open: map<nat, nat>, stream: nat): set<nat> {
    set r | r in open && open[r] == stream
  }

  ghost predicate ActivitySound(s: State, stream: nat) {
    && stream in s.activity && stream in s.ended
    && s.activity[stream].requests == |RequestsOn(s.open, stream)|
    && s.ended[stream] <= s.now
    && (s.activity[stream].requests == 0 ==> s.activity[stream].last == s.ended[stream])
  }

  ghost predicate Sound(s: State) {
    && (forall stream :: stream in s.activity ==> ActivitySound(s, stream))
    && (forall stream :: stream in s.routes ==> stream in s.activity)
    && (forall r :: r in s.open ==> s.open[r] in s.activity)
    && (!s.scan.NoScan? ==> s.scan.at <= s.now && s.timeout > 0)
  }

  predicate Starts(s: State, timeout: nat) {
    s == State(s.now, timeout, {}, map[], map[], map[], {}, NoScan)
  }

  lemma OpenedRequests(open: map<nat, nat>, request: nat, stream: nat, other: nat)
    requires request !in open
    ensures RequestsOn(open[request := stream], other) ==
      if other == stream then RequestsOn(open, other) + {request} else RequestsOn(open, other)
    ensures |RequestsOn(open[request := stream], other)| == |RequestsOn(open, other)| + if other == stream then 1 else 0
  {
    var now := RequestsOn(open[request := stream], other);
    assert now == if other == stream then RequestsOn(open, other) + {request} else RequestsOn(open, other);
  }

  lemma ClosedRequests(open: map<nat, nat>, request: nat, other: nat)
    requires request in open
    ensures |RequestsOn(open - {request}, other)| == |RequestsOn(open, other)| - if other == open[request] then 1 else 0
  {
    var left := RequestsOn(open - {request}, other);
    assert left == RequestsOn(open, other) - {request};
    assert request in RequestsOn(open, other) <==> other == open[request];
  }

  lemma OpenKeepsSound(s: State, request: nat, stream: nat)
    requires Sound(s)
    ensures Sound(Next(s, OpenRequest(request, stream)))
  {
    var s' := Next(s, OpenRequest(request, stream));
    if s' != s {
      forall other | other in s'.activity ensures ActivitySound(s', other) {
        assert ActivitySound(s, other);
        OpenedRequests(s.open, request, stream, other);
      }
    }
  }

  lemma CloseKeepsSound(s: State, request: nat)
    requires Sound(s)
    ensures Sound(Next(s, CloseRequest(request)))
  {
    var s' := Next(s, CloseRequest(request));
    if request in s.open {
      forall other | other in s'.activity ensures ActivitySound(s', other) {
        assert ActivitySound(s, other);
        ClosedRequests(s.open, request, other);
        if other == s.open[request] {
          assert request in RequestsOn(s.open, other);
        }
      }
    }
  }

  lemma RegisterKeepsSound(s: State, stream: nat)
    requires Sound(s)
    ensures Sound(Next(s, Register(stream)))
  {
    var s' := Next(s, Register(stream));
    forall other | other in s'.activity ensures ActivitySound(s', other) {
      if other in s.activity {
        assert ActivitySound(s, other);
      } else {
        assert RequestsOn(s.open, other) == {};
      }
    }
  }

  lemma StepKeepsSound(s: State, step: Step)
    requires Sound(s)
    ensures Sound(Next(s, step))
  {
    match step
    case OpenRequest(request, stream) => OpenKeepsSound(s, request, stream);
    case CloseRequest(request) => CloseKeepsSound(s, request);
    case Register(stream) => RegisterKeepsSound(s, stream);
    case _ =>
      forall other | other in s.activity ensures ActivitySound(Next(s, step), other) {
        assert ActivitySound(s, other);
      }
  }

  lemma {:induction false} RunsAreSound(s: State, steps: seq<Step>)
    requires Sound(s)
    ensures Sound(Run(s, steps))
    decreases |steps|
  {
    if steps != [] {
      StepKeepsSound(s, steps[0]);
      RunsAreSound(Next(s, steps[0]), steps[1..]);
    }
  }

  /**
   In every run, a scan removes a route exactly when no demand and no request uses the stream and
   the stream was already unused for the whole timeout when the scan read the clock.
   */
  lemma ExpiryIsSafe(start: State, timeout: nat, steps: seq<Step>, stream: nat)
    requires Starts(start, timeout)
    requires var s := Run(start, steps); s.scan.Scanning? && stream in s.scan.todo && stream in s.routes
    ensures var s := Run(start, steps);
      stream !in Next(s, ScanRoute(stream)).routes <==>
      && stream !in s.demanded && (forall r :: r in s.open ==> s.open[r] != stream)
      && stream in s.ended && s.scan.at - s.ended[stream] >= s.timeout
    ensures var s := Run(start, steps);
      stream !in Next(s, ScanRoute(stream)).routes ==>
        && s.timeout > 0 && stream in s.ended && s.now - s.ended[stream] >= s.timeout
        && forall r :: r in s.open ==> s.open[r] != stream
  {
    RunsAreSound(start, steps);
    var s := Run(start, steps);
    assert ActivitySound(s, stream);
    if forall r :: r in s.open ==> s.open[r] != stream {
      assert RequestsOn(s.open, stream) == {};
    } else {
      var r :| r in s.open && s.open[r] == stream;
      assert r in RequestsOn(s.open, stream);
    }
  }

  /** No step of the scan, and no request starting or ending, takes away a route in use. */
  lemma RouteInUseStays(s: State, step: Step, request: nat)
    requires Sound(s) && request in s.open && s.open[request] in s.routes
    requires !step.Retire?
    ensures s.open[request] in Next(s, step).routes
  {
    assert ActivitySound(s, s.open[request]);
    assert request in RequestsOn(s.open, s.open[request]);
  }

  // ----- the record and the scan as they run -----

  class StreamActivityRecord {
    var requests: nat
    var last: nat

    function View(): Activity
      reads this
    {
      Activity(requests, last)
    }

    constructor (now: nat)
      ensures View() == Activity(0, now)
    {
      requests, last := 0, now;
    }

    method AcquireHttpRequest()
      modifies this
      ensures View() == Acquired(old(View()))
    {
      requests := requests + 1;
    }

    method ReleaseHttpRequest(now: nat)
      modifies this
      ensures View() == Released(old(View()), now)
    {
      if requests == 0 {
        return;
      }
      requests := requests - 1;
      if requests == 0 {
        last := now;
      }
    }
  }

  predicate Expired(x: nat, activity: map<nat, Activity>, demanded: set<nat>, now: nat, timeout: nat)
    requires x in activity
  {
    x !in demanded && IsInactive(activity[x], now, timeout)
  }

  /** The scan without interruptions: the expired streams are those unused for the whole timeout. */
  method ExpireInactiveStreams(routes: set<nat>, activity: map<nat, Activity>, demanded: set<nat>, now: nat, timeout: nat)
    returns (kept: set<nat>, expired: seq<nat>)
    requires routes <= activity.Keys
    ensures NoDuplicates(expired)
    ensures forall x :: x in expired <==> timeout > 0 && x in routes && Expired(x, activity, demanded, now, timeout)
    ensures forall x :: x in kept <==> x in routes && x !in expired
  {
    kept, expired := routes, [];
    if timeout == 0 {
      return;
    }
    var todo := routes;
    while todo != {}
      invariant todo <= routes && NoDuplicates(expired)
      invariant forall x :: x in expired <==> x in routes && x !in todo && Expired(x, activity, demanded, now, timeout)
      invariant forall x :: x in kept <==> x in routes && x !in expired
      decreases |todo|
    {
      var x :| x in todo;
      todo := todo - {x};
      if Expired(x, activity, demanded, now, timeout) {
        kept, expired := kept - {x}, expired + [x];
      }
    }
  }
}
