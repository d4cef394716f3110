/**
 Writing a response body.  A handler asks for one piece at a time and writes what it gets:
 verified bytes from memory once the whole piece is there, or, before that, bytes of finished
 blocks from the payload file.  The environment is a script that says, for every pass of the
 wait loop, what the handler then sees; the contracts hold for every script.
 */
module StreamBody {
  import opened Common
  import opened PieceScheduler

  /** What one pass of the wait loop sees, and how the payload file and the writer then behave. */
  datatype Pass = Pass(
    stopped: bool,                // the server stops or the demand was cancelled
    done: bool,                   // the engine completed the waiter ...
    data: Option<seq<Byte>>,      // ... with the verified piece
    error: string,                // ... or with a reason
    finishedBlocks: seq<bool>,
    opens: bool,                  // the payload file can be opened
    readable: bool,               // reading from it succeeds
    file: int -> Byte,            // its contents, by position in the file
    accepted: nat)                // how many bytes the writer takes

  datatype Payload = Unopened | Open | Unusable

  datatype Slice = Slice(pieceStart: U64, begin: U64, end: U64)

  datatype Ending = Finished | QueueFull | Stopped | ReadFailed | ShortPiece | TimedOut | WriterRefused | Unaddressable

  // ----- runs of finished blocks -----

  function FirstUnfinished(blocks: seq<bool>, block: nat): (r: nat)
    ensures block <= r && (r == block || r <= |blocks|)
    ensures forall b :: block <= b < r ==> blocks[b]
    ensures r < |blocks| ==> !blocks[r]
    decreases |blocks| - block
  {
    if block < |blocks| && blocks[block] then FirstUnfinished(blocks, block + 1) else block
  }

  /** Up to where, from `cursor`, all bytes lie in finished blocks. */
  function FinishedRunEnd(blocks: seq<bool>, cursor: nat, limit: nat): int {
    Min(FirstUnfinished(blocks, cursor / BLOCK_BYTES) * BLOCK_BYTES, limit)
  }

  predicate InFinishedBlock(blocks: seq<bool>, x: int) {
    0 <= x && x / BLOCK_BYTES < |blocks| && blocks[x / BLOCK_BYTES]
  }

  /** Every byte of the run is in a finished block, and the run cannot be longer. */
  lemma RunIsFinished(blocks: seq<bool>, cursor: nat, limit: nat)
    requires cursor <= limit
    ensures var end := FinishedRunEnd(blocks, cursor, limit);
      && end <= limit
      && (forall x :: cursor <= x < end ==> InFinishedBlock(blocks, x))
      && (cursor < limit && end < limit ==> !InFinishedBlock(blocks, Max(end, cursor)))
  {
    var first := FirstUnfinished(blocks, cursor / BLOCK_BYTES);
    var end := FinishedRunEnd(blocks, cursor, limit);
    forall x | cursor <= x < end ensures InFinishedBlock(blocks, x) {
      DivisionMonotone(cursor, x, BLOCK_BYTES);
      DivisionBracket(x, BLOCK_BYTES);
    }
    if cursor < limit && end < limit {
      DivisionBracket(cursor, BLOCK_BYTES);
      DivisionUnique(end, BLOCK_BYTES, first);
    }
  }

  // ----- one pass -----

  datatype PassResult =
    | Return(ending: Ending, wrote: seq<Byte>)
    | Advance(cursor: nat, wrote: seq<Byte>)
    | GiveUpPayload
    | NoProgress

  function Taken(bytes: seq<Byte>, accepted: nat): seq<Byte> {
    bytes[..Min(accepted, |bytes|)]
  }

  function PayloadAfter(payload: Payload, pass: Pass): Payload {
    if payload == Unopened then (if pass.opens then Open else Unusable) else payload
  }

  function FileBytes(pass: Pass, position: int, length: nat): (r: seq<Byte>)
    ensures |r| == length
  {
    seq<Byte>(length, i => pass.file(position + i))
  }

  /** One pass: `readable` says whether the payload file is still worth trying. */
  function OnePass(pass: Pass, fileOffset: U64, slice: Slice, cursor: nat, readable: bool, payload: Payload): PassResult
    requires slice.begin <= cursor < slice.end
  {
    var runEnd := FinishedRunEnd(pass.finishedBlocks, cursor, slice.end);
    var unverifiedReady := readable && runEnd > cursor;
    if pass.stopped then Return(Stopped, [])
    else if pass.done && pass.error != "" then Return(ReadFailed, [])
    else if !pass.done && !unverifiedReady then Return(TimedOut, [])
    else if pass.done && pass.data.Some? then
      if slice.end > |pass.data.value| then Return(ShortPiece, [])
      else
        var bytes := pass.data.value[cursor..slice.end];
        Return(if pass.accepted < |bytes| then WriterRefused else Finished, Taken(bytes, pass.accepted))
    else
      var end := if pass.done then cursor else runEnd;
      var absolute := slice.pieceStart + cursor;
      if absolute < fileOffset || PayloadAfter(payload, pass) == Unusable || !pass.readable then
        if readable then GiveUpPayload else NoProgress
      else
        var bytes := FileBytes(pass, absolute - fileOffset, end - cursor);
        if pass.accepted < |bytes| then Return(WriterRefused, Taken(bytes, pass.accepted))
        else if end == cursor then NoProgress
        else Advance(end, bytes)
  }

  /** A completed waiter carries data or a reason. */
  predicate CarriesResult(pass: Pass) {
    pass.done ==> pass.data.Some? || pass.error != ""
  }

  /** Bytes handed over are the torrent's: verified pieces, and finished blocks on disk. */
  ghost predicate Truthful(content: int -> Byte, pass: Pass, fileOffset: int, pieceStart: int) {
    && (pass.data.Some? ==> forall i :: 0 <= i < |pass.data.value| ==> pass.data.value[i] == content(pieceStart + i))
    && (forall x :: InFinishedBlock(pass.finishedBlocks, x) ==>
        pass.file(pieceStart + x - fileOffset) == content(pieceStart + x))
  }

  ghost predicate IsContent(content: int -> Byte, start: int, bytes: seq<Byte>) {
    forall i :: 0 <= i < |bytes| ==> bytes[i] == content(start + i)
  }

  /** A pass that carries its result returns, moves the cursor or gives up the payload file. */
  lemma PassMakesProgress(pass: Pass, fileOffset: U64, slice: Slice, cursor: nat, readable: bool, payload: Payload)
    requires slice.begin <= cursor < slice.end
    ensures var r := OnePass(pass, fileOffset, slice, cursor, readable, payload);
      && (CarriesResult(pass) ==> r != NoProgress)
      && (r.Advance? ==> cursor < r.cursor <= slice.end && |r.wrote| == r.cursor - cursor)
      && (r.GiveUpPayload? ==> readable)
  {
  }

  /** The payload file gives the bytes at the cursor. */
  predicate FileServes(pass: Pass, fileOffset: U64, slice: Slice, cursor: nat, payload: Payload) {
    && fileOffset <= slice.pieceStart + cursor && pass.readable
    && payload != Unusable && (payload == Unopened ==> pass.opens)
  }

  /**
   Exactly when a pass makes no progress: the handler is not stopped, the waiter was completed with
   neither data nor a reason, and no payload file is left to give up.
   */
  lemma NoProgressIff(pass: Pass, fileOffset: U64, slice: Slice, cursor: nat, readable: bool, payload: Payload)
    requires slice.begin <= cursor < slice.end
    ensures OnePass(pass, fileOffset, slice, cursor, readable, payload) == NoProgress <==>
      !pass.stopped && !CarriesResult(pass) && (!readable || FileServes(pass, fileOffset, slice, cursor, payload))
  {
  }

  /** The input of such a pass: a waiter completed with neither data nor a reason. */
  lemma EmptyCompletionSpins(slice: Slice, fileOffset: U64)
    requires slice.begin < slice.end && fileOffset <= slice.pieceStart
    ensures var pass := Pass(false, true, None, "", [], true, true, (i: int) => 0, 0);
      && !CarriesResult(pass)
      && OnePass(pass, fileOffset, slice, slice.begin, true, Open) == NoProgress
  {
  }

  /** What a pass writes are the next bytes of the torrent. */
  lemma PassWritesContent(content: int -> Byte, pass: Pass, fileOffset: U64, slice: Slice, cursor: nat, readable: bool, payload: Payload)
    requires slice.begin <= cursor < slice.end && Truthful(content, pass, fileOffset, slice.pieceStart)
    ensures var r := OnePass(pass, fileOffset, slice, cursor, readable, payload);
      && (r.Return? ==> |r.wrote| <= slice.end - cursor && IsContent(content, slice.pieceStart + cursor, r.wrote))
      && (r.Return? ==> (r.ending == Finished ==> |r.wrote| == slice.end - cursor))
      && (r.Advance? ==> IsContent(content, slice.pieceStart + cursor, r.wrote))
  {
    RunIsFinished(pass.finishedBlocks, cursor, slice.end);
    var r := OnePass(pass, fileOffset, slice, cursor, readable, payload);
    var start := slice.pieceStart + cursor;
    if r.Return? || r.Advance? {
      forall i | 0 <= i < |r.wrote| ensures r.wrote[i] == content(start + i) {
        if pass.done {
          assert r.wrote[i] == pass.data.value[cursor + i] == content(slice.pieceStart + (cursor + i));
        } else {
          assert InFinishedBlock(pass.finishedBlocks, cursor + i);
        }
      }
    }
  }

  lemma ContentAppend(content: int -> Byte, start: int, a: seq<Byte>, b: seq<Byte>)
    requires IsContent(content, start, a) && IsContent(content, start + |a|, b)
    ensures IsContent(content, start, a + b)
  {
  }

  // ----- the passes over one piece -----

  /** One slice to serve, and what each pass of the wait loop will see. */
  datatype Job = Job(fileOffset: U64, slice: Slice, piece: nat, script: (nat, nat) -> Pass)

  /** Where the wait loop stands: `readable` says whether the payload file is still worth trying. */
  datatype Point = Point(cursor: nat, readable: bool, payload: Payload)

  function PassOf(job: Job, i: nat): Pass {
    job.script(job.piece, i)
  }

  function StartOf(slice: Slice, payload: Payload): Point {
    Point(slice.begin, payload != Unusable, payload)
  }

  predicate Inside(job: Job, p: Point) {
    job.slice.begin <= p.cursor <= job.slice.end
  }

  function PassFrom(job: Job, i: nat, p: Point): PassResult
    requires Inside(job, p) && p.cursor < job.slice.end
  {
    OnePass(PassOf(job, i), job.fileOffset, job.slice, p.cursor, p.readable, p.payload)
  }

  /** The point after a pass that does not return. */
  function Moved(job: Job, i: nat, p: Point): Point
    requires Inside(job, p) && p.cursor < job.slice.end
  {
    var r, payload := PassFrom(job, i, p), PayloadAfter(p.payload, PassOf(job, i));
    if r.Advance? then Point(r.cursor, p.readable, payload)
    else Point(p.cursor, p.readable && !r.GiveUpPayload?, payload)
  }

  /** How the wait loop ends, and the point of its last pass. */
  datatype Served = Served(ending: Ending, payload: Payload, passes: nat, at: Point)

  ghost predicate CarriesAll(job: Job) {
    forall i: nat :: CarriesResult(PassOf(job, i))
  }

  lemma MovesOn(job: Job, i: nat, p: Point)
    requires Inside(job, p) && p.cursor < job.slice.end && CarriesResult(PassOf(job, i)) && !PassFrom(job, i, p).Return?
    ensures var q := Moved(job, i, p);
      && Inside(job, q)
      && (p.cursor < q.cursor || (p.cursor == q.cursor && p.readable && !q.readable))
  {
    PassMakesProgress(PassOf(job, i), job.fileOffset, job.slice, p.cursor, p.readable, p.payload);
  }

  ghost function Serve(job: Job, i: nat, p: Point): Served
    requires Inside(job, p) && CarriesAll(job)
    decreases job.slice.end - p.cursor, p.readable
  {
    if p.cursor == job.slice.end then Served(Finished, p.payload, i, p)
    else
      var r := PassFrom(job, i, p);
      if r.Return? then Served(r.ending, p.payload, i + 1, p)
      else
        MovesOn(job, i, p);
        Serve(job, i + 1, Moved(job, i, p))
  }

  /**
   Nothing goes wrong from this point on: nobody stops the handler, the verified piece arrives
   whole, or before that each look finds more finished blocks; an unreadable payload file only
   means waiting for the verified piece; and the writer takes everything.
   */
  ghost predicate Undisturbed(job: Job, i: nat, p: Point)
    requires Inside(job, p) && CarriesAll(job)
    decreases job.slice.end - p.cursor, p.readable
  {
    var pass := PassOf(job, i);
    var runEnd := FinishedRunEnd(pass.finishedBlocks, p.cursor, job.slice.end);
    p.cursor == job.slice.end ||
    (!pass.stopped &&
     if pass.done then
       pass.error == "" && job.slice.end <= |pass.data.value| && job.slice.end - p.cursor <= pass.accepted
     else
       p.readable && p.cursor < runEnd &&
       if FileServes(pass, job.fileOffset, job.slice, p.cursor, p.payload)
       then runEnd - p.cursor <= pass.accepted && Undisturbed(job, i + 1, Point(runEnd, true, Open))
       else Undisturbed(job, i + 1, Point(p.cursor, false, PayloadAfter(p.payload, pass))))
  }

  /** The slice is served to its end exactly when nothing goes wrong. */
  lemma {:induction false} ServedIffUndisturbed(job: Job, i: nat, p: Point)
    requires Inside(job, p) && CarriesAll(job)
    ensures Serve(job, i, p).ending == Finished <==> Undisturbed(job, i, p)
    decreases job.slice.end - p.cursor, p.readable
  {
    if p.cursor < job.slice.end {
      assert CarriesResult(PassOf(job, i));
      RunIsFinished(PassOf(job, i).finishedBlocks, p.cursor, job.slice.end);
      if !PassFrom(job, i, p).Return? {
        MovesOn(job, i, p);
        ServedIffUndisturbed(job, i + 1, Moved(job, i, p));
      }
    }
  }

  /** The last pass shows why the handler gave up, at the cursor it had reached. */
  predicate Explains(job: Job, s: Served) {
    s.passes > 0 && job.slice.begin <= s.at.cursor < job.slice.end &&
    var pass := PassOf(job, s.passes - 1);
    var runEnd := FinishedRunEnd(pass.finishedBlocks, s.at.cursor, job.slice.end);
    match s.ending
    case Stopped => pass.stopped
    case ReadFailed => pass.done && pass.error != ""
    case ShortPiece => pass.done && pass.data.Some? && |pass.data.value| < job.slice.end
    case TimedOut => !pass.done && (!s.at.readable || runEnd <= s.at.cursor)
    case WriterRefused => pass.accepted < (if pass.done then job.slice.end else runEnd) - s.at.cursor
    case Finished => false
    case QueueFull => false
    case Unaddressable => false
  }

  lemma {:induction false} ServedOrExplained(job: Job, i: nat, p: Point)
    requires Inside(job, p) && CarriesAll(job)
    ensures var s := Serve(job, i, p); Inside(job, s.at) && (s.ending == Finished || Explains(job, s))
    decreases job.slice.end - p.cursor, p.readable
  {
    if p.cursor < job.slice.end && !PassFrom(job, i, p).Return? {
      MovesOn(job, i, p);
      ServedOrExplained(job, i + 1, Moved(job, i, p));
    }
  }

  // ----- without the assumption that a completed waiter carries something -----

  datatype Loop = Running(at: Point) | Ended(ending: Ending)

  /** The wait loop after `k` more passes, whatever the waiter carries. */
  function RunFor(job: Job, i: nat, p: Point, k: nat): Loop
    requires Inside(job, p)
    decreases k
  {
    if p.cursor == job.slice.end then Ended(Finished)
    else if k == 0 then Running(p)
    else
      var r := PassFrom(job, i, p);
      if r.Return? then Ended(r.ending)
      else
        PassMakesProgress(PassOf(job, i), job.fileOffset, job.slice, p.cursor, p.readable, p.payload);
        RunFor(job, i + 1, Moved(job, i, p), k - 1)
  }

  /** Waiters that carry their result end the loop, after the passes and with the ending of `Serve`. */
  lemma {:induction false} CarryingLoopEnds(job: Job, i: nat, p: Point)
    requires Inside(job, p) && CarriesAll(job)
    ensures Serve(job, i, p).passes >= i
    ensures RunFor(job, i, p, Serve(job, i, p).passes - i) == Ended(Serve(job, i, p).ending)
    decreases job.slice.end - p.cursor, p.readable
  {
    if p.cursor < job.slice.end && !PassFrom(job, i, p).Return? {
      MovesOn(job, i, p);
      CarryingLoopEnds(job, i + 1, Moved(job, i, p));
    }
  }

  /** The waiter stays completed with neither data nor a reason. */
  ghost predicate StaysEmpty(job: Job) {
    forall i: nat :: !CarriesResult(PassOf(job, i))
  }

  lemma {:induction false} EmptyLoopRuns(job: Job, i: nat, p: Point, k: nat)
    requires Inside(job, p) && p.cursor < job.slice.end && StaysEmpty(job)
    ensures RunFor(job, i, p, k).Ended? <==> exists j: nat :: i <= j < i + k && PassOf(job, j).stopped
    decreases k
  {
    if k > 0 {
      assert !CarriesResult(PassOf(job, i));
      if !PassOf(job, i).stopped {
        EmptyLoopRuns(job, i + 1, Moved(job, i, p), k - 1);
        assert forall j: nat :: i <= j < i + k && PassOf(job, j).stopped ==> i + 1 <= j;
      } else {
        assert i <= i < i + k && PassOf(job, i).stopped;
      }
    }
  }

  /** Such a handler ends if and only if it is stopped. */
  lemma EmptyCompletionEndsIffStopped(job: Job, p: Point)
    requires Inside(job, p) && p.cursor < job.slice.end && StaysEmpty(job)
    ensures (exists k: nat :: RunFor(job, 0, p, k).Ended?) <==> exists j: nat :: PassOf(job, j).stopped
  {
    if k: nat :| RunFor(job, 0, p, k).Ended? {
      EmptyLoopRuns(job, 0, p, k);
    }
    if j: nat :| PassOf(job, j).stopped {
      EmptyLoopRuns(job, 0, p, j + 1);
      assert RunFor(job, 0, p, j + 1).Ended?;
    }
  }

  // ----- one piece -----

  /** Every pass of the script for a piece carries its result and hands over the torrent's bytes. */
  ghost predicate Trusted(content: int -> Byte, job: Job) {
    forall i: nat ::
      CarriesResult(PassOf(job, i)) && Truthful(content, PassOf(job, i), job.fileOffset, job.slice.pieceStart)
  }

  /** One trusted pass: it ends the slice, moves on with the right bytes, or gives up the payload file. */
  lemma TrustedPass(content: int -> Byte, job: Job, i: nat, p: Point)
    requires Inside(job, p) && p.cursor < job.slice.end && Trusted(content, job)
    ensures match PassFrom(job, i, p)
      case Return(reason, wrote) =>
        && |wrote| == WrittenBy(job, Served(reason, p.payload, i + 1, p)) <= job.slice.end - p.cursor
        && IsContent(content, job.slice.pieceStart + p.cursor, wrote)
      case Advance(next, wrote) =>
        && p.cursor < next <= job.slice.end && |wrote| == next - p.cursor
        && IsContent(content, job.slice.pieceStart + p.cursor, wrote)
      case GiveUpPayload => p.readable
      case NoProgress => false
  {
    PassMakesProgress(PassOf(job, i), job.fileOffset, job.slice, p.cursor, p.readable, p.payload);
    PassWritesContent(content, PassOf(job, i), job.fileOffset, job.slice, p.cursor, p.readable, p.payload);
  }

  /** How many bytes the last pass wrote: the rest of the slice, what the writer took, or nothing. */
  function WrittenBy(job: Job, s: Served): int {
    if s.ending == Finished then job.slice.end - s.at.cursor
    else if s.ending == WriterRefused && s.passes > 0 then PassOf(job, s.passes - 1).accepted
    else 0
  }

  /**
   Serves one slice of a piece.  Whatever the script, the bytes written are a prefix of the slice's
   bytes, in order and without gap or repeat: all of it exactly when nothing goes wrong, and
   otherwise up to the cursor at which the last pass shows what did.
   */
  method ServePiece(ghost content: int -> Byte, job: Job, queued: bool, payload: Payload)
    returns (s: Served, written: seq<Byte>)
    requires job.slice.begin <= job.slice.end && Trusted(content, job)
    ensures IsContent(content, job.slice.pieceStart + job.slice.begin, written)
    ensures s.ending == QueueFull <==> !queued
    ensures !queued ==> written == []
    ensures queued ==> s == Serve(job, 0, StartOf(job.slice, payload))
    ensures queued ==> (s.ending == Finished <==> Undisturbed(job, 0, StartOf(job.slice, payload)))
    ensures queued ==> s.ending == Finished || Explains(job, s)
    ensures queued ==> |written| == s.at.cursor - job.slice.begin + WrittenBy(job, s) <= job.slice.end - job.slice.begin
  {
    var p := StartOf(job.slice, payload);
    if !queued {
      return Served(QueueFull, payload, 0, p), [];
    }
    ServedIffUndisturbed(job, 0, p);
    ServedOrExplained(job, 0, p);
    s, written := RunPasses(content, job, p);
  }

  /** The bytes a pass writes. */
  function Output(r: PassResult): seq<Byte> {
    if r.Return? || r.Advance? then r.wrote else []
  }

  /** What one pass contributes to the service of the slice. */
  lemma OneStep(content: int -> Byte, job: Job, i: nat, p: Point)
    requires Inside(job, p) && p.cursor < job.slice.end && Trusted(content, job)
    ensures var r, s := PassFrom(job, i, p), Serve(job, i, p);
      && IsContent(content, job.slice.pieceStart + p.cursor, Output(r))
      && (r.Return? ==> s == Served(r.ending, p.payload, i + 1, p) && |Output(r)| == WrittenBy(job, s) <= job.slice.end - p.cursor)
      && (!r.Return? ==>
            var q := Moved(job, i, p);
            && Inside(job, q) && s == Serve(job, i + 1, q) && |Output(r)| == q.cursor - p.cursor
            && (p.cursor < q.cursor || (p.cursor == q.cursor && p.readable && !q.readable)))
  {
    TrustedPass(content, job, i, p);
    if !PassFrom(job, i, p).Return? {
      MovesOn(job, i, p);
    }
  }

  /** The wait loop stands at `p` after `i` passes, with everything before the cursor written. */
  ghost predicate AtPass(content: int -> Byte, job: Job, start: Point, i: nat, p: Point, written: seq<Byte>) {
    && Inside(job, start) && Inside(job, p) && Trusted(content, job)
    && |written| == p.cursor - job.slice.begin && IsContent(content, job.slice.pieceStart + job.slice.begin, written)
    && Serve(job, i, p) == Serve(job, 0, start)
  }

  ghost predicate SliceResult(content: int -> Byte, job: Job, start: Point, s: Served, written: seq<Byte>) {
    && Inside(job, start) && CarriesAll(job) && s == Serve(job, 0, start)
    && IsContent(content, job.slice.pieceStart + job.slice.begin, written)
    && |written| == s.at.cursor - job.slice.begin + WrittenBy(job, s) <= job.slice.end - job.slice.begin
  }

  lemma PassTaken(content: int -> Byte, job: Job, start: Point, i: nat, p: Point, written: seq<Byte>)
    requires AtPass(content, job, start, i, p, written) && p.cursor < job.slice.end
    ensures var r := PassFrom(job, i, p);
      if r.Return? then SliceResult(content, job, start, Served(r.ending, p.payload, i + 1, p), written + Output(r))
      else AtPass(content, job, start, i + 1, Moved(job, i, p), written + Output(r))
    ensures !PassFrom(job, i, p).Return? ==>
      var q := Moved(job, i, p); p.cursor < q.cursor || (p.cursor == q.cursor && p.readable && !q.readable)
  {
    OneStep(content, job, i, p);
    ContentAppend(content, job.slice.pieceStart + job.slice.begin, written, Output(PassFrom(job, i, p)));
  }

  method RunPasses(ghost content: int -> Byte, job: Job, start: Point) returns (s: Served, written: seq<Byte>)
    requires Inside(job, start) && start.cursor == job.slice.begin && Trusted(content, job)
    ensures SliceResult(content, job, start, s, written)
  {
    var p, passes := start, 0;
    written := [];
    while p.cursor < job.slice.end
      invariant AtPass(content, job, start, passes, p, written)
      decreases job.slice.end - p.cursor, p.readable
    {
      PassTaken(content, job, start, passes, p, written);
      var r := PassFrom(job, passes, p);
      written := written + Output(r);
      if r.Return? {
        return Served(r.ending, p.payload, passes + 1, p), written;
      }
      p, passes := Moved(job, passes, p), passes + 1;
    }
    s := Served(Finished, p.payload, passes, p);
  }

  // ----- the whole body -----

  /** `demand` is exactly what the response still needs, from its start, of the piece it starts in. */
  ghost predicate IsDemandRange(demand: ByteRange, range: ByteRange, fileOffset: U64, pieceSize: U32)
    requires pieceSize > 0
  {
    && range.start <= demand.start <= demand.end <= range.end
    && (forall b :: demand.start <= b <= range.end ==>
        (b <= demand.end <==>
         PieceNumber(fileOffset, b, pieceSize) == PieceNumber(fileOffset, demand.start, pieceSize)))
  }

  /** The demand ranges issued so far cover the response up to `end`, one piece each and maximal there. */
  ghost predicate Covers(issued: seq<ByteRange>, range: ByteRange, fileOffset: U64, pieceSize: U32, end: int)
    requires pieceSize > 0
  {
    && (issued == [] ==> end == range.start)
    && (issued != [] ==> issued[0].start == range.start && issued[|issued| - 1].end + 1 == end)
    && (forall i :: 0 < i < |issued| ==> issued[i].start == issued[i - 1].end + 1)
    && (forall i :: 0 <= i < |issued| ==>
        IsDemandRange(issued[i], range, fileOffset, pieceSize))
  }

  predicate Addressable(range: ByteRange, fileOffset: U64, pieceSize: U32)
    requires pieceSize > 0
  {
    && fileOffset + range.end < U64_MAX
    && PieceNumber(fileOffset, range.end, pieceSize) <= U32_MAX
  }

  lemma CoversNext(issued: seq<ByteRange>, range: ByteRange, fileOffset: U64, pieceSize: U32, end: U64, demand: ByteRange)
    requires pieceSize > 0 && Covers(issued, range, fileOffset, pieceSize, end)
    requires demand.start == end && IsDemandRange(demand, range, fileOffset, pieceSize)
    ensures Covers(issued + [demand], range, fileOffset, pieceSize, demand.end + 1)
  {
  }

  /** The bytes of a piece that belong to the response. */
  function SliceOf(range: ByteRange, fileOffset: U64, pieceSize: U32, piece: U32): Slice
    requires pieceSize > 0 && range.start <= range.end && Addressable(range, fileOffset, pieceSize)
    requires PieceNumber(fileOffset, range.start, pieceSize) <= piece <= PieceNumber(fileOffset, range.end, pieceSize)
  {
    SliceBounds(range, fileOffset, pieceSize, piece);
    var absoluteEndExclusive: U64 := fileOffset + range.end + 1;
    var pieceStart: U64 := piece * pieceSize;
    var pieceEnd: U64 := pieceStart + pieceSize;
    var current: U64 := Max(fileOffset + range.start, pieceStart);
    Slice(pieceStart, current - pieceStart, Min(absoluteEndExclusive, pieceEnd) - pieceStart)
  }

  lemma SliceBounds(range: ByteRange, fileOffset: U64, pieceSize: U32, piece: U32)
    requires pieceSize > 0 && range.start <= range.end && Addressable(range, fileOffset, pieceSize)
    requires PieceNumber(fileOffset, range.start, pieceSize) <= piece <= PieceNumber(fileOffset, range.end, pieceSize)
    ensures 0 <= piece * pieceSize <= fileOffset + range.end && piece * pieceSize + pieceSize <= U64_MAX
    ensures fileOffset + range.start < piece * pieceSize + pieceSize
  {
    PieceSpanFits(piece, pieceSize);
    PieceArithmetic(fileOffset + range.start, fileOffset + range.end, pieceSize, piece);
  }

  /** Where the part of `start..end` that lies in piece `p` begins and ends. */
  lemma PieceArithmetic(start: int, end: int, d: int, p: int)
    requires d > 0 && start <= end && start / d <= p <= end / d
    ensures p * d <= end && start < p * d + d
    ensures Max(start, p * d) / d == p
    ensures p == start / d ==> p * d <= start
    ensures p == end / d ==> end < p * d + d
    ensures p < end / d ==> (p + 1) * d <= end && start <= (p + 1) * d
    ensures (p + 1) * d == p * d + d
  {
    DivisionBracket(start, d);
    DivisionBracket(end, d);
    MultiplesApart(d, p, end / d);
    MultiplesApart(d, start / d, p);
    DivisionUnique(Max(start, p * d), d, p);
  }

  /** First position of the response, relative to the file, that lies in the piece. */
  function PositionOf(range: ByteRange, fileOffset: U64, pieceSize: U32, piece: U32): int
    requires pieceSize > 0 && range.start <= range.end && Addressable(range, fileOffset, pieceSize)
    requires PieceNumber(fileOffset, range.start, pieceSize) <= piece <= PieceNumber(fileOffset, range.end, pieceSize)
  {
    var slice := SliceOf(range, fileOffset, pieceSize, piece);
    slice.pieceStart + slice.begin - fileOffset
  }

  /** The slice served for a piece is the demand range issued for it, in absolute positions. */
  lemma SliceIsDemandRange(range: ByteRange, fileOffset: U64, pieceSize: U32, piece: U32)
    requires pieceSize > 0 && range.start <= range.end && Addressable(range, fileOffset, pieceSize)
    requires PieceNumber(fileOffset, range.start, pieceSize) <= piece <= PieceNumber(fileOffset, range.end, pieceSize)
    ensures var slice, position := SliceOf(range, fileOffset, pieceSize, piece), PositionOf(range, fileOffset, pieceSize, piece);
      && slice.begin < slice.end && range.start <= position <= range.end
      && var demand := BlockingDemandRange(range, position, fileOffset, pieceSize);
        && demand.Success? && demand.value.start == position
        && fileOffset + demand.value.end + 1 == slice.pieceStart + slice.end
  {
    SliceBounds(range, fileOffset, pieceSize, piece);
    PieceArithmetic(fileOffset + range.start, fileOffset + range.end, pieceSize, piece);
    var position := PositionOf(range, fileOffset, pieceSize, piece);
    assert fileOffset + position == Max(fileOffset + range.start, piece * pieceSize);
    assert PieceNumber(fileOffset, position, pieceSize) == piece;
    DemandEndInPiece(range, position, fileOffset, pieceSize, piece);
  }

  lemma DemandEndInPiece(range: ByteRange, position: U64, fileOffset: U64, pieceSize: U32, piece: int)
    requires pieceSize > 0 && range.start <= position <= range.end
    requires PieceNumber(fileOffset, position, pieceSize) == piece
    ensures var demand := BlockingDemandRange(range, position, fileOffset, pieceSize);
      && demand.Success? && demand.value.start == position
      && demand.value.end == Min(piece * pieceSize + pieceSize - 1 - fileOffset, range.end)
  {
    BlockingDemandRangeEnd(range, position, fileOffset, pieceSize);
    assert pieceSize * piece == piece * pieceSize;
  }

  /** Successive slices meet: the first starts the response, the last ends it. */
  lemma SlicesMeet(range: ByteRange, fileOffset: U64, pieceSize: U32, piece: U32)
    requires pieceSize > 0 && range.start <= range.end && Addressable(range, fileOffset, pieceSize)
    requires PieceNumber(fileOffset, range.start, pieceSize) <= piece <= PieceNumber(fileOffset, range.end, pieceSize)
    ensures piece == PieceNumber(fileOffset, range.start, pieceSize) ==>
            PositionOf(range, fileOffset, pieceSize, piece) == range.start
    ensures var slice := SliceOf(range, fileOffset, pieceSize, piece);
      slice.pieceStart + slice.end - fileOffset ==
      if piece == PieceNumber(fileOffset, range.end, pieceSize) then range.end + 1
      else PositionOf(range, fileOffset, pieceSize, piece + 1)
  {
    PieceArithmetic(fileOffset + range.start, fileOffset + range.end, pieceSize, piece);
  }

  lemma PieceSpanFits(piece: U32, pieceSize: U32)
    ensures 0 <= piece * pieceSize && piece * pieceSize + pieceSize <= U64_MAX
  {
    ProductNonNegative(piece, pieceSize);
    ProductNonNegative(U32_MAX - piece, pieceSize);
    assert (U32_MAX - piece) * pieceSize == U32_MAX * pieceSize - piece * pieceSize;
  }

  // ----- a response and its environment -----

  /** A response to stream; whether the handler is stopped before a piece, and whether its read is queued. */
  datatype Body = Body(
    fileOffset: U64, pieceSize: U32, range: ByteRange,
    stopBefore: nat -> bool, queued: nat -> bool, script: (nat, nat) -> Pass)

  predicate Servable(b: Body) {
    b.pieceSize > 0 && b.range.start <= b.range.end && Addressable(b.range, b.fileOffset, b.pieceSize)
  }

  function FirstPiece(b: Body): int
    requires b.pieceSize > 0
  {
    PieceNumber(b.fileOffset, b.range.start, b.pieceSize)
  }

  function LastPiece(b: Body): int
    requires b.pieceSize > 0
  {
    PieceNumber(b.fileOffset, b.range.end, b.pieceSize)
  }

  predicate HasPiece(b: Body, piece: int) {
    Servable(b) && 0 <= FirstPiece(b) <= piece <= LastPiece(b)
  }

  function JobOf(b: Body, piece: U32): Job
    requires HasPiece(b, piece)
  {
    Job(b.fileOffset, SliceOf(b.range, b.fileOffset, b.pieceSize, piece), piece, b.script)
  }

  function PositionIn(b: Body, piece: U32): int
    requires HasPiece(b, piece)
  {
    PositionOf(b.range, b.fileOffset, b.pieceSize, piece)
  }

  /** Every pass of the script carries its result and hands over the torrent's bytes. */
  ghost predicate TrustedBody(content: int -> Byte, b: Body)
    requires b.pieceSize > 0
  {
    forall piece: nat, i: nat {:trigger b.script(piece, i)} ::
      && CarriesResult(b.script(piece, i))
      && Truthful(content, b.script(piece, i), b.fileOffset, piece * b.pieceSize)
  }

  lemma TrustedJob(content: int -> Byte, b: Body, piece: U32)
    requires HasPiece(b, piece) && TrustedBody(content, b)
    ensures var job := JobOf(b, piece);
      && Trusted(content, job) && CarriesAll(job)
      && job.slice.begin < job.slice.end && Inside(job, StartOf(job.slice, Open))
  {
    SliceIsDemandRange(b.range, b.fileOffset, b.pieceSize, piece);
    var job := JobOf(b, piece);
    forall i: nat
      ensures CarriesResult(PassOf(job, i)) && Truthful(content, PassOf(job, i), job.fileOffset, job.slice.pieceStart)
    {
      assert PassOf(job, i) == b.script(piece, i);
    }
  }

  ghost predicate CarriesBody(b: Body) {
    forall piece: nat, i: nat {:trigger b.script(piece, i)} :: CarriesResult(b.script(piece, i))
  }

  lemma CarriesJob(b: Body, piece: U32)
    requires HasPiece(b, piece) && CarriesBody(b)
    ensures CarriesAll(JobOf(b, piece)) && JobOf(b, piece).slice.begin < JobOf(b, piece).slice.end
  {
    SliceIsDemandRange(b.range, b.fileOffset, b.pieceSize, piece);
    var job := JobOf(b, piece);
    forall i: nat ensures CarriesResult(PassOf(job, i)) {
      assert PassOf(job, i) == b.script(piece, i);
    }
  }

  ghost function ServedPiece(b: Body, piece: U32, payload: Payload): Served
    requires HasPiece(b, piece) && CarriesBody(b)
  {
    CarriesJob(b, piece);
    Serve(JobOf(b, piece), 0, StartOf(JobOf(b, piece).slice, payload))
  }

  ghost predicate UndisturbedPiece(b: Body, piece: U32, payload: Payload)
    requires HasPiece(b, piece) && CarriesBody(b)
  {
    CarriesJob(b, piece);
    Undisturbed(JobOf(b, piece), 0, StartOf(JobOf(b, piece).slice, payload))
  }

  /** From this piece on the handler is never stopped or turned away, and nothing goes wrong in a piece. */
  ghost predicate UndisturbedFrom(b: Body, piece: int, payload: Payload)
    requires Servable(b) && CarriesBody(b) && 0 <= FirstPiece(b) <= piece
    decreases LastPiece(b) + 1 - piece
  {
    piece > LastPiece(b) ||
    (Goes(b, piece, payload) && UndisturbedFrom(b, piece + 1, ServedPiece(b, piece, payload).payload))
  }

  /** The handler is neither stopped nor turned away at the piece, and nothing goes wrong in it. */
  ghost predicate Goes(b: Body, piece: U32, payload: Payload)
    requires HasPiece(b, piece) && CarriesBody(b)
  {
    !b.stopBefore(piece) && b.queued(piece) && UndisturbedPiece(b, piece, payload)
  }

  /** Nothing fails in the whole response. */
  ghost predicate NothingFails(b: Body)
    requires Servable(b) && CarriesBody(b)
  {
    PieceNumberMonotone(b.fileOffset, b.range.start, b.range.end, b.pieceSize);
    UndisturbedFrom(b, FirstPiece(b), Unopened)
  }

  /** Where a response ended: the piece, and how its service went. */
  datatype Site = Site(piece: nat, served: Served)

  /** The site shows the reason: a stop, a full queue, or a failing pass at the cursor reached. */
  predicate ExplainsBody(b: Body, ending: Ending, site: Site, written: nat) {
    && HasPiece(b, site.piece)
    && (|| (ending == Stopped && b.stopBefore(site.piece) && b.range.start + written == PositionIn(b, site.piece))
        || (ending == QueueFull && !b.queued(site.piece) && b.range.start + written == PositionIn(b, site.piece))
        || (var job := JobOf(b, site.piece);
            && ending == site.served.ending && Explains(job, site.served)
            && b.fileOffset + b.range.start + written ==
               job.slice.pieceStart + site.served.at.cursor + WrittenBy(job, site.served)))
  }

  /** A response that ended for such a reason is incomplete. */
  lemma ExplainedIsShort(b: Body, ending: Ending, site: Site, written: nat)
    requires ExplainsBody(b, ending, site, written)
    ensures ending != Finished && ending != Unaddressable && written < b.range.end - b.range.start + 1
  {
    SliceIsDemandRange(b.range, b.fileOffset, b.pieceSize, site.piece);
    SliceEndsInside(b, site.piece);
    if Explains(JobOf(b, site.piece), site.served) {
      RunIsFinished(PassOf(JobOf(b, site.piece), site.served.passes - 1).finishedBlocks, site.served.at.cursor, JobOf(b, site.piece).slice.end);
    }
  }

  lemma SliceEndsInside(b: Body, piece: U32)
    requires HasPiece(b, piece)
    ensures JobOf(b, piece).slice.pieceStart + JobOf(b, piece).slice.end <= b.fileOffset + b.range.end + 1
  {
  }

  /** The range the handler asks for when it comes to a piece. */
  function DemandOf(b: Body, piece: U32): ByteRange
    requires HasPiece(b, piece)
  {
    SliceIsDemandRange(b.range, b.fileOffset, b.pieceSize, piece);
    BlockingDemandRange(b.range, PositionIn(b, piece), b.fileOffset, b.pieceSize).value
  }

  lemma DemandFacts(b: Body, piece: U32)
    requires HasPiece(b, piece)
    ensures var demand, slice := DemandOf(b, piece), JobOf(b, piece).slice;
      && demand.start == PositionIn(b, piece) <= demand.end
      && IsDemandRange(demand, b.range, b.fileOffset, b.pieceSize)
      && demand.end + 1 == (if piece == LastPiece(b) then b.range.end + 1 else PositionIn(b, piece + 1))
      && b.fileOffset + demand.start == slice.pieceStart + slice.begin
      && b.fileOffset + demand.end + 1 == slice.pieceStart + slice.end
  {
    SliceIsDemandRange(b.range, b.fileOffset, b.pieceSize, piece);
    SlicesMeet(b.range, b.fileOffset, b.pieceSize, piece);
    BlockingDemandRangeIsMaximal(b.range, PositionIn(b, piece), b.fileOffset, b.pieceSize);
  }

  /** What the service of one piece has written, and how it ended. */
  ghost predicate PieceResult(content: int -> Byte, b: Body, piece: U32, payload: Payload, s: Served, wrote: seq<Byte>, demand: ByteRange)
    requires HasPiece(b, piece) && CarriesBody(b)
  {
    && IsContent(content, b.fileOffset + demand.start, wrote) && |wrote| <= demand.end + 1 - demand.start
    && (s.ending == Finished <==> b.queued(piece) && UndisturbedPiece(b, piece, payload))
    && (s.ending == Finished ==> |wrote| == demand.end + 1 - demand.start && s == ServedPiece(b, piece, payload))
    && (s.ending != Finished ==>
        b.range.start <= demand.start && ExplainsBody(b, s.ending, Site(piece, s), demand.start - b.range.start + |wrote|))
  }

  /** Asks for the part of the response in one piece and serves it. */
  method StreamPiece(ghost content: int -> Byte, b: Body, piece: U32, payload: Payload)
    returns (s: Served, wrote: seq<Byte>, demand: ByteRange)
    requires HasPiece(b, piece) && TrustedBody(content, b) && CarriesBody(b)
    ensures demand == DemandOf(b, piece) && PieceResult(content, b, piece, payload, s, wrote, demand)
  {
    TrustedJob(content, b, piece);
    var job := JobOf(b, piece);
    demand := DemandOf(b, piece);
    s, wrote := ServePiece(content, job, b.queued(piece), payload);
    if s.ending == Finished {
      PieceFinished(content, b, piece, payload, s, wrote);
    } else {
      PieceCutShort(content, b, piece, payload, s, wrote);
    }
  }

  lemma PieceFinished(content: int -> Byte, b: Body, piece: U32, payload: Payload, s: Served, wrote: seq<Byte>)
    requires HasPiece(b, piece) && CarriesBody(b) && b.queued(piece) && s.ending == Finished
    requires UndisturbedPiece(b, piece, payload) && s == ServedPiece(b, piece, payload)
    requires var slice := JobOf(b, piece).slice;
      IsContent(content, slice.pieceStart + slice.begin, wrote) && |wrote| == slice.end - slice.begin
    ensures PieceResult(content, b, piece, payload, s, wrote, DemandOf(b, piece))
  {
    DemandFacts(b, piece);
  }

  lemma PieceCutShort(content: int -> Byte, b: Body, piece: U32, payload: Payload, s: Served, wrote: seq<Byte>)
    requires HasPiece(b, piece) && CarriesBody(b) && s.ending != Finished
    requires b.queued(piece) ==> !UndisturbedPiece(b, piece, payload) && Explains(JobOf(b, piece), s)
    requires !b.queued(piece) ==> s.ending == QueueFull && wrote == []
    requires var job := JobOf(b, piece);
      && IsContent(content, job.slice.pieceStart + job.slice.begin, wrote)
      && (b.queued(piece) ==> |wrote| == s.at.cursor - job.slice.begin + WrittenBy(job, s) <= job.slice.end - job.slice.begin)
    ensures PieceResult(content, b, piece, payload, s, wrote, DemandOf(b, piece))
  {
    DemandFacts(b, piece);
  }

  /** Everything up to `position` has been asked for and written. */
  ghost predicate Streamed(content: int -> Byte, b: Body, output: seq<Byte>, issued: seq<ByteRange>, position: int)
    requires b.pieceSize > 0
  {
    && b.range.start <= position <= b.range.end + 1 && |output| == position - b.range.start
    && IsContent(content, b.fileOffset + b.range.start, output)
    && Covers(issued, b.range, b.fileOffset, b.pieceSize, position)
  }

  lemma StreamedNext(content: int -> Byte, b: Body, output: seq<Byte>, issued: seq<ByteRange>, demand: ByteRange, wrote: seq<Byte>)
    requires b.pieceSize > 0 && Streamed(content, b, output, issued, demand.start)
    requires IsDemandRange(demand, b.range, b.fileOffset, b.pieceSize)
    requires IsContent(content, b.fileOffset + demand.start, wrote) && |wrote| <= demand.end + 1 - demand.start
    ensures IsContent(content, b.fileOffset + b.range.start, output + wrote)
    ensures |output + wrote| == demand.start - b.range.start + |wrote| <= b.range.end - b.range.start + 1
    ensures Covers(issued + [demand], b.range, b.fileOffset, b.pieceSize, demand.end + 1)
    ensures |wrote| == demand.end + 1 - demand.start ==>
      Streamed(content, b, output + wrote, issued + [demand], demand.end + 1)
  {
    CoversNext(issued, b.range, b.fileOffset, b.pieceSize, demand.start, demand);
    assert b.fileOffset + demand.start == b.fileOffset + b.range.start + |output|;
    ContentAppend(content, b.fileOffset + b.range.start, output, wrote);
  }

  /** What a response so far has written, asked for and, if it is over, shown. */
  ghost predicate BodyResult(content: int -> Byte, b: Body, ending: Ending, output: seq<Byte>, issued: seq<ByteRange>,
                             reached: int, site: Site)
    requires Servable(b)
  {
    && IsContent(content, b.fileOffset + b.range.start, output) && |output| <= b.range.end - b.range.start + 1
    && Covers(issued, b.range, b.fileOffset, b.pieceSize, reached)
    && (ending == Finished ==> |output| == b.range.end - b.range.start + 1 && reached == b.range.end + 1)
    && (ending != Finished ==> ExplainsBody(b, ending, site, |output|))
    && ending != Unaddressable
  }

  /** Where the response stands when the handler comes to a piece, or has passed the last one. */
  function Reached(b: Body, piece: int): int
    requires Servable(b) && 0 <= FirstPiece(b) <= piece <= LastPiece(b) + 1
  {
    if piece <= LastPiece(b) then PositionIn(b, piece) else b.range.end + 1
  }

  /** One turn of the loop over pieces. */
  method StreamNext(ghost content: int -> Byte, b: Body, piece: U32, payload: Payload, output: seq<Byte>, issued: seq<ByteRange>)
    returns (ending: Ending, output': seq<Byte>, issued': seq<ByteRange>, s: Served, ghost reached: int)
    requires HasPiece(b, piece) && TrustedBody(content, b) && CarriesBody(b)
    requires Streamed(content, b, output, issued, PositionIn(b, piece))
    ensures ending == Finished <==> Goes(b, piece, payload)
    ensures ending == Finished ==> Streamed(content, b, output', issued', Reached(b, piece + 1))
    ensures ending == Finished ==> s == ServedPiece(b, piece, payload)
    ensures ending != Finished ==> BodyResult(content, b, ending, output', issued', reached, Site(piece, s))
  {
    if b.stopBefore(piece) {
      StoppedHere(content, b, piece, payload, output, issued);
      return Stopped, output, issued, Served(Stopped, payload, 0, Point(0, true, payload)), PositionIn(b, piece);
    }
    var wrote, demand;
    s, wrote, demand := StreamPiece(content, b, piece, payload);
    PieceStreamed(content, b, piece, payload, output, issued, s, wrote);
    ending, output', issued', reached := s.ending, output + wrote, issued + [demand], demand.end + 1;
  }

  lemma StoppedHere(content: int -> Byte, b: Body, piece: U32, payload: Payload, output: seq<Byte>, issued: seq<ByteRange>)
    requires HasPiece(b, piece) && b.stopBefore(piece) && Streamed(content, b, output, issued, PositionIn(b, piece))
    ensures BodyResult(content, b, Stopped, output, issued, PositionIn(b, piece),
                       Site(piece, Served(Stopped, payload, 0, Point(0, true, payload))))
  {
    DemandFacts(b, piece);
  }

  lemma PieceStreamed(content: int -> Byte, b: Body, piece: U32, payload: Payload, output: seq<Byte>, issued: seq<ByteRange>,
                      s: Served, wrote: seq<Byte>)
    requires HasPiece(b, piece) && CarriesBody(b) && Streamed(content, b, output, issued, PositionIn(b, piece))
    requires PieceResult(content, b, piece, payload, s, wrote, DemandOf(b, piece))
    ensures var demand := DemandOf(b, piece);
      && (s.ending == Finished ==> Streamed(content, b, output + wrote, issued + [demand], Reached(b, piece + 1)))
      && (s.ending != Finished ==>
          BodyResult(content, b, s.ending, output + wrote, issued + [demand], demand.end + 1, Site(piece, s)))
  {
    DemandFacts(b, piece);
    StreamedNext(content, b, output, issued, DemandOf(b, piece), wrote);
    if s.ending != Finished {
      ExplainedIsShort(b, s.ending, Site(piece, s), |output + wrote|);
    }
  }

  /** The loop over pieces has come to `piece` with everything before it written. */
  ghost predicate AtPiece(content: int -> Byte, b: Body, piece: int, payload: Payload, output: seq<Byte>, issued: seq<ByteRange>) {
    && Servable(b) && TrustedBody(content, b) && CarriesBody(b) && 0 <= FirstPiece(b) <= piece <= LastPiece(b) + 1
    && Streamed(content, b, output, issued, Reached(b, piece))
    && (UndisturbedFrom(b, piece, payload) <==> NothingFails(b))
  }

  lemma AtFirstPiece(content: int -> Byte, b: Body)
    requires Servable(b) && TrustedBody(content, b) && CarriesBody(b)
    ensures AtPiece(content, b, FirstPiece(b), Unopened, [], []) && FirstPiece(b) <= LastPiece(b)
  {
    PieceNumberMonotone(b.fileOffset, b.range.start, b.range.end, b.pieceSize);
    SlicesMeet(b.range, b.fileOffset, b.pieceSize, FirstPiece(b));
  }

  lemma PastLastPiece(content: int -> Byte, b: Body, piece: int, payload: Payload, output: seq<Byte>, issued: seq<ByteRange>, site: Site)
    requires AtPiece(content, b, piece, payload, output, issued) && piece > LastPiece(b)
    ensures BodyResult(content, b, Finished, output, issued, b.range.end + 1, site) && NothingFails(b)
  {
  }

  method StreamOn(ghost content: int -> Byte, b: Body, piece: U32, payload: Payload, output: seq<Byte>, issued: seq<ByteRange>)
    returns (ending: Ending, output': seq<Byte>, issued': seq<ByteRange>, s: Served, ghost reached: int)
    requires AtPiece(content, b, piece, payload, output, issued) && piece <= LastPiece(b)
    ensures ending == Finished ==> AtPiece(content, b, piece + 1, s.payload, output', issued')
    ensures ending != Finished ==> BodyResult(content, b, ending, output', issued', reached, Site(piece, s)) && !NothingFails(b)
  {
    ending, output', issued', s, reached := StreamNext(content, b, piece, payload, output, issued);
  }

  method StreamPieces(ghost content: int -> Byte, b: Body)
    returns (ending: Ending, output: seq<Byte>, issued: seq<ByteRange>, site: Site, ghost reached: int)
    requires Servable(b) && TrustedBody(content, b) && CarriesBody(b)
    ensures BodyResult(content, b, ending, output, issued, reached, site)
    ensures ending == Finished <==> NothingFails(b)
  {
    AtFirstPiece(content, b);
    output, issued := [], [];
    var piece: int := FirstPiece(b);
    var s := Served(Finished, Unopened, 0, Point(0, true, Unopened));
    while piece <= LastPiece(b)
      invariant AtPiece(content, b, piece, s.payload, output, issued)
    {
      ending, output, issued, s, reached := StreamOn(content, b, piece, s.payload, output, issued);
      if ending != Finished {
        return ending, output, issued, Site(piece, s), reached;
      }
      piece := piece + 1;
    }
    ending, site, reached := Finished, Site(piece, s), b.range.end + 1;
    PastLastPiece(content, b, piece, s.payload, output, issued, site);
  }

  /**
   Streams the bytes of a range.  The output is always a prefix of the range's bytes; it is the whole
   range exactly when the range can be addressed and nothing fails, and otherwise the site shows
   what failed and at which byte.  The demand ranges issued on the way are consecutive, each
   maximal within its piece, and cover the range when it was finished.
   */
  method StreamRange(ghost content: int -> Byte, b: Body)
    returns (ending: Ending, output: seq<Byte>, issued: seq<ByteRange>, site: Site)
    requires b.pieceSize > 0 && b.range.start <= b.range.end && TrustedBody(content, b) && CarriesBody(b)
    ensures ending == Unaddressable <==> !Servable(b)
    ensures !Servable(b) ==> output == [] && issued == []
    ensures Servable(b) ==> exists reached :: BodyResult(content, b, ending, output, issued, reached, site)
    ensures Servable(b) ==> (ending == Finished <==> NothingFails(b))
    ensures Servable(b) ==> (ending == Finished <==> |output| == b.range.end - b.range.start + 1)
  {
    output, issued, site := [], [], Site(0, Served(Finished, Unopened, 0, Point(0, true, Unopened)));
    if b.range.end > U64_MAX - b.fileOffset {
      return Unaddressable, [], [], site;
    }
    var absoluteEnd: U64 := b.fileOffset + b.range.end;
    if absoluteEnd == U64_MAX {
      return Unaddressable, [], [], site;
    }
    var lastPiece := absoluteEnd / b.pieceSize;
    if lastPiece > U32_MAX {
      return Unaddressable, [], [], site;
    }
    ghost var reached;
    ending, output, issued, site, reached := StreamPieces(content, b);
    if ending != Finished {
      ExplainedIsShort(b, ending, site, |output|);
    }
  }
}
