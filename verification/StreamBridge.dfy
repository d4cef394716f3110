/**
 The stream bridge as a protocol.  HTTP handlers enqueue commands and wait for pieces; the engine
 thread takes the queue in batches and keeps routes, demands, anchors, waiters and partial blocks
 consistent, while streams are registered and stopped, torrents removed and alerts delivered.
 Handlers may step between any two engine steps.
 */
module StreamBridge {
  import opened Common

  type Torrent = nat
  type Stream = nat

  const MAXIMUM_HTTP_COMMANDS: nat := 4096

  datatype Key = Key(torrent: Torrent, piece: nat)
  datatype Route = Route(stream: Stream, torrent: Torrent)
  datatype Demand = Demand(route: Route, needsData: bool)
  datatype StreamAnchor = StreamAnchor(route: Route, prefetch: bool)

  /** What a waiter was completed with. */
  datatype Outcome = Data(key: Key) | Failed
  datatype Waiter = Waiter(demand: nat, key: Key, outcome: Option<Outcome>, cancelled: bool)

  datatype Command =
    | BeginDemand(demand: nat, route: Route)
    | EndDemand(demand: nat)
    | ReadPiece(demand: nat, key: Key, waiter: nat)

  /** The engine's tables, and the waiters it shares with the handlers. */
  datatype Tables = Tables(
    routes: map<Stream, Torrent>,
    demands: map<nat, Demand>,
    anchors: map<Torrent, StreamAnchor>,
    waiting: map<Key, seq<nat>>,
    partial: map<Key, seq<bool>>,
    revoked: set<Torrent>,
    cancelled: set<nat>,              // demands told to give up
    waiters: seq<Waiter>)

  datatype Handler = Handler(route: Route, current: Option<nat>, ended: bool)

  datatype Phase = Idle | Draining | Settling

  datatype State = State(
    tables: Tables,
    owners: map<Stream, Torrent>,     // every stream ever registered
    handlers: map<nat, Handler>,      // by demand id
    nextDemand: nat,
    commands: seq<Command>,
    batch: seq<Command>,              // taken from the queue by the poll under way
    phase: Phase,
    changed: set<Torrent>,
    taken: nat,                       // waiters created before the last poll began
    processed: nat)                   // waiters whose command has been processed

  const INITIAL :=
    State(Tables(map[], map[], map[], map[], map[], {}, {}, []), map[], map[], 1, [], [], Idle, {}, 0, 0)

  // ----- waiters -----

  predicate Open(w: Waiter) {
    w.outcome == None && !w.cancelled
  }

  function Complete(w: Waiter, outcome: Outcome): Waiter {
    if Open(w) then w.(outcome := Some(outcome)) else w
  }

  function CompleteWhere(ws: seq<Waiter>, chosen: set<nat>, outcome: Outcome): (r: seq<Waiter>)
    ensures |r| == |ws|
    ensures forall i :: 0 <= i < |ws| ==> r[i] == if i in chosen then Complete(ws[i], outcome) else ws[i]
  {
    seq(|ws|, i requires 0 <= i < |ws| => if i in chosen then Complete(ws[i], outcome) else ws[i])
  }

  function CompleteOne(ws: seq<Waiter>, w: nat, outcome: Outcome): (r: seq<Waiter>)
    ensures |r| == |ws|
    ensures forall i :: 0 <= i < |ws| ==> r[i] == if i == w then Complete(ws[i], outcome) else ws[i]
  {
    if w < |ws| then ws[w := Complete(ws[w], outcome)] else ws
  }

  function Without(s: seq<nat>, dropped: set<nat>): (r: seq<nat>)
    ensures forall w :: w in r <==> w in s && w !in dropped
  {
    if s == [] then [] else (if s[0] in dropped then [] else [s[0]]) + Without(s[1..], dropped)
  }

  /** Waiters leave the tables; a piece nobody waits for keeps no record of its blocks. */
  function Unregister(t: Tables, dropped: set<nat>): Tables {
    t.(waiting := map k | k in t.waiting && Without(t.waiting[k], dropped) != [] :: Without(t.waiting[k], dropped),
       partial := map k | k in t.partial && !(k in t.waiting && Without(t.waiting[k], dropped) == []) :: t.partial[k])
  }

  function WaitersOf(t: Tables, ids: set<nat>): set<nat> {
    set w | 0 <= w < |t.waiters| && t.waiters[w].demand in ids
  }

  /** The demands end and everybody waiting for them is told. */
  function CancelDemands(t: Tables, ids: set<nat>): Tables {
    Unregister(t, WaitersOf(t, ids)).(
      demands := t.demands - ids,
      cancelled := t.cancelled + ids,
      waiters := CompleteWhere(t.waiters, WaitersOf(t, ids) * Registered(t), Failed))
  }

  /** Waiters are registered under the piece they wait for. */
  function Registered(t: Tables): set<nat> {
    set w | 0 <= w < |t.waiters| && t.waiters[w].key in t.waiting && w in t.waiting[t.waiters[w].key]
  }

  function WaitersOn(t: Tables, id: Torrent): set<nat> {
    set w | w in Registered(t) && t.waiters[w].key.torrent == id
  }

  function WaitersFor(t: Tables, key: Key): set<nat> {
    set w | w in Registered(t) && t.waiters[w].key == key
  }

  // ----- the engine's operations on the tables -----

  function DemandsOf(t: Tables, streams: set<Stream>): set<nat> {
    set d | d in t.demands && t.demands[d].route.stream in streams
  }

  function StopStreams(t: Tables, streams: set<Stream>): Tables {
    CancelDemands(
      t.(routes := t.routes - streams,
         anchors := map id | id in t.anchors && t.anchors[id].route.stream !in streams :: t.anchors[id]),
      DemandsOf(t, streams))
  }

  ghost predicate IsFocus(t: Tables, id: Torrent, d: nat) {
    && d in t.demands && t.demands[d].route.torrent == id && t.demands[d].needsData
    && forall e :: e in t.demands && t.demands[e].route.torrent == id && t.demands[e].needsData ==> e <= d
  }

  /** A new plan for the torrent anchors it at the newest demand that lacks data. */
  ghost function Recompute(t: Tables, id: Torrent, planned: bool): Tables {
    if planned && exists d :: IsFocus(t, id, d) then
      var d :| IsFocus(t, id, d);
      t.(anchors := t.anchors[id := StreamAnchor(t.demands[d].route, false)])
    else t
  }

  ghost function RegisterStream(t: Tables, r: Route, nonEmpty: bool, planned: bool): Tables {
    var previous := set s | s in t.routes && t.routes[s] == r.torrent;
    var t' := StopStreams(t, previous);
    var t'' := t'.(routes := t'.routes[r.stream := r.torrent], revoked := t'.revoked - {r.torrent});
    if nonEmpty
    then Recompute(t''.(anchors := t''.anchors[r.torrent := StreamAnchor(r, true)]), r.torrent, planned)
    else t''
  }

  ghost function StopStream(t: Tables, stream: Stream, planned: bool): Tables {
    var t' := StopStreams(t, {stream});
    if stream in t.routes then Recompute(t', t.routes[stream], planned) else t'
  }

  /** The torrent's own part of the tables is cleared. */
  function Cleared(t: Tables, id: Torrent): Tables {
    var gone := set d | d in t.demands && t.demands[d].route.torrent == id;
    t.(revoked := t.revoked + {id},
       anchors := t.anchors - {id},
       routes := map s | s in t.routes && t.routes[s] != id :: t.routes[s],
       demands := t.demands - gone,
       cancelled := t.cancelled + gone,
       partial := map k | k in t.partial && k.torrent != id :: t.partial[k],
       waiting := map k | k in t.waiting && k.torrent != id :: t.waiting[k],
       waiters := CompleteWhere(t.waiters, WaitersOn(t, id), Failed))
  }

  ghost function RemoveTorrent(t: Tables, id: Torrent, planned: bool): Tables {
    Recompute(Cleared(t, id), id, planned)
  }

  /** A piece was read, or could not be; everybody waiting for it is told. */
  function FinishPiece(t: Tables, key: Key, outcome: Outcome): Tables {
    t.(partial := t.partial - {key},
       waiting := t.waiting - {key},
       waiters := CompleteWhere(t.waiters, WaitersFor(t, key), outcome))
  }

  function BlockFinished(t: Tables, key: Key, block: nat): Tables {
    if key in t.partial && block < |t.partial[key]|
    then t.(partial := t.partial[key := t.partial[key][block := true]]) else t
  }

  function HashFailed(t: Tables, key: Key): Tables {
    if key in t.partial then t.(partial := t.partial[key := seq(|t.partial[key]|, i => false)]) else t
  }

  /** What the torrent and the caches say when a read is processed. */
  datatype Reading = Unusable | Cached | OnDisk | Missing(blocks: seq<bool>)

  function ProcessRead(t: Tables, c: Command, reading: Reading): Tables
    requires c.ReadPiece?
  {
    if c.demand !in t.demands || c.demand in t.cancelled || c.key.torrent in t.revoked || reading.Unusable?
    then t.(waiters := CompleteOne(t.waiters, c.waiter, Failed))
    else if reading.Cached? then
      t.(waiters := CompleteOne(t.waiters, c.waiter, Data(c.key)),
         demands := t.demands[c.demand := t.demands[c.demand].(needsData := false)])
    else
      t.(waiting := t.waiting[c.key := (if c.key in t.waiting then t.waiting[c.key] else []) + [c.waiter]],
         demands := t.demands[c.demand := t.demands[c.demand].(needsData := reading.Missing?)],
         partial := if reading.Missing? && c.key !in t.partial then t.partial[c.key := reading.blocks] else t.partial)
  }

  predicate RouteIsActive(t: Tables, r: Route) {
    r.torrent !in t.revoked && r.stream in t.routes && t.routes[r.stream] == r.torrent
  }

  function ProcessCommand(t: Tables, c: Command, needsData: bool, reading: Reading): Tables {
    match c
    case BeginDemand(d, r) =>
      if RouteIsActive(t, r) then t.(demands := t.demands[d := Demand(r, needsData)])
      else t.(cancelled := t.cancelled + {d})
    case EndDemand(d) => t.(demands := t.demands - {d})
    case ReadPiece(_, _, _) => ProcessRead(t, c, reading)
  }

  /** The torrents whose plan a command may change. */
  function Touched(t: Tables, c: Command): set<Torrent> {
    match c
    case BeginDemand(_, r) => if RouteIsActive(t, r) then {r.torrent} else {}
    case EndDemand(d) => if d in t.demands then {t.demands[d].route.torrent} else {}
    case ReadPiece(d, _, _) =>
      if d in t.demands && d !in t.cancelled then {t.demands[d].route.torrent} else {}
  }

  function Prune(t: Tables): Tables {
    Unregister(t, set w | 0 <= w < |t.waiters| && t.waiters[w].cancelled)
  }

  function Expire(t: Tables, stream: Stream): Tables {
    if stream in t.routes && DemandsOf(t, {stream}) == {} then
      t.(routes := t.routes - {stream},
         anchors := map id | id in t.anchors && t.anchors[id].route.stream != stream :: t.anchors[id])
    else t
  }

  // ----- the steps -----

  datatype Step =
    // handlers
    | HandlerBegin(stream: Stream)
    | HandlerRead(demand: nat, piece: nat)
    | HandlerCancel(demand: nat)
    | HandlerEnd(demand: nat)
    // the engine's poll
    | StartPoll
    | Process(needsData: bool, reading: Reading)
    | PruneWaiters
    | RecomputeChanged(id: Torrent, planned: bool)
    | ExpireStream(stream: Stream, planned: bool)
    | FinishPoll
    // the engine between polls
    | Register(route: Route, nonEmpty: bool, planned: bool)
    | Stop(stream: Stream, planned: bool)
    | Remove(torrent: Torrent, planned: bool)
    | DeliverPiece(key: Key, succeeded: bool)
    | DeliverBlock(key: Key, block: nat, planned: bool)
    | DeliverHashFailure(key: Key)

  /** The handler's last read is over, or it has made none. */
  predicate Unoccupied(s: State, d: nat) {
    && d in s.handlers && !s.handlers[d].ended
    && (s.handlers[d].current.Some? && s.handlers[d].current.value < |s.tables.waiters| ==>
        !Open(s.tables.waiters[s.handlers[d].current.value]))
  }

  function BeginStep(s: State, stream: Stream): State {
    if stream !in s.owners then s
    else if |s.commands| >= MAXIMUM_HTTP_COMMANDS then s.(nextDemand := s.nextDemand + 1)
    else
      var r := Route(stream, s.owners[stream]);
      s.(nextDemand := s.nextDemand + 1,
         handlers := s.handlers[s.nextDemand := Handler(r, None, false)],
         commands := s.commands + [BeginDemand(s.nextDemand, r)])
  }

  function ReadStep(s: State, d: nat, piece: nat): State {
    if !Unoccupied(s, d) || |s.commands| >= MAXIMUM_HTTP_COMMANDS then s
    else
      var w, key := |s.tables.waiters|, Key(s.handlers[d].route.torrent, piece);
      s.(tables := s.tables.(waiters := s.tables.waiters + [Waiter(d, key, None, false)]),
         handlers := s.handlers[d := s.handlers[d].(current := Some(w))],
         commands := s.commands + [ReadPiece(d, key, w)])
  }

  function CancelStep(s: State, d: nat): State {
    if d in s.handlers && s.handlers[d].current.Some? && s.handlers[d].current.value < |s.tables.waiters| then
      var w := s.handlers[d].current.value;
      s.(tables := s.tables.(waiters := s.tables.waiters[w := s.tables.waiters[w].(cancelled := true)]))
    else s
  }

  function EndStep(s: State, d: nat): State {
    if !Unoccupied(s, d) then s
    else s.(handlers := s.handlers[d := s.handlers[d].(ended := true)], commands := s.commands + [EndDemand(d)])
  }

  function ProcessStep(s: State, needsData: bool, reading: Reading): State {
    if s.phase != Draining || s.batch == [] then s
    else
      var c := s.batch[0];
      s.(tables := ProcessCommand(s.tables, c, needsData, reading),
         changed := s.changed + Touched(s.tables, c),
         batch := s.batch[1..],
         processed := if c.ReadPiece? then s.processed + 1 else s.processed)
  }

  /** The engine's own operations on the tables, outside the command loop. */
  ghost function Operate(t: Tables, step: Step): Tables {
    match step
    case Register(r, nonEmpty, planned) => RegisterStream(t, r, nonEmpty, planned)
    case Stop(stream, planned) => StopStream(t, stream, planned)
    case Remove(id, planned) => RemoveTorrent(t, id, planned)
    case DeliverPiece(key, succeeded) => FinishPiece(t, key, if succeeded then Data(key) else Failed)
    case DeliverBlock(key, block, planned) => Recompute(BlockFinished(t, key, block), key.torrent, planned)
    case DeliverHashFailure(key) => HashFailed(t, key)
    case RecomputeChanged(id, planned) => Recompute(t, id, planned)
    case ExpireStream(stream, planned) =>
      if stream in t.routes then Recompute(Expire(t, stream), t.routes[stream], planned) else t
    case _ => t
  }

  /** The engine can take the step now. */
  predicate Applies(s: State, step: Step) {
    match step
    case RecomputeChanged(id, _) => s.phase == Settling && id in s.changed
    case ExpireStream(_, _) => s.phase == Settling && s.changed == {}
    case Register(r, _, _) => s.phase == Idle && r.stream !in s.owners
    case _ => s.phase == Idle
  }

  function OwnersAfter(owners: map<Stream, Torrent>, step: Step): map<Stream, Torrent> {
    if step.Register? then owners[step.route.stream := step.route.torrent] else owners
  }

  ghost function EngineStep(s: State, step: Step): State {
    if !Applies(s, step) then s
    else
      s.(tables := Operate(s.tables, step),
         owners := OwnersAfter(s.owners, step),
         changed := if step.RecomputeChanged? then s.changed - {step.id} else s.changed)
  }

  ghost function Next(s: State, step: Step): State {
    match step
    case HandlerBegin(stream) => BeginStep(s, stream)
    case HandlerRead(d, piece) => ReadStep(s, d, piece)
    case HandlerCancel(d) => CancelStep(s, d)
    case HandlerEnd(d) => EndStep(s, d)
    case StartPoll =>
      if s.phase != Idle then s
      else s.(batch := s.commands, commands := [], phase := Draining, changed := {}, taken := |s.tables.waiters|)
    case Process(needsData, reading) => ProcessStep(s, needsData, reading)
    case PruneWaiters =>
      if s.phase != Draining || s.batch != [] then s else s.(tables := Prune(s.tables), phase := Settling)
    case FinishPoll => if s.phase != Settling || s.changed != {} then s else s.(phase := Idle)
    case _ => EngineStep(s, step)
  }

  ghost function Run(s: State, steps: seq<Step>): State
    decreases |steps|
  {
    if steps == [] then s else Run(Next(s, steps[0]), steps[1..])
  }
}
