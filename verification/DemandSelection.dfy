/**
 What a torrent's plan is asked for: the readers that lack data, oldest first, each cold or warm by the blocks
 of the piece it is blocked on; or, when nobody lacks data, the torrent's anchor.
 */
module DemandSelection {
  import opened Common
  import opened PieceScheduler
  import opened DemandPlan
  import opened DemandPlanProperties
  import opened PlanWindows

  type Torrent = nat

  datatype FileRoute = FileRoute(torrent: Torrent, fileOffset: U64, fileSize: U64, pieceSize: U32)
  datatype ActiveDemand = ActiveDemand(id: U64, route: FileRoute, range: ByteRange, needsData: bool)
  datatype StreamAnchor = StreamAnchor(route: FileRoute, range: ByteRange, prefetch: bool)

  /** The active demands in the order of the map that holds them. */
  ghost predicate ById(active: seq<ActiveDemand>) {
    forall i, j :: 0 <= i < j < |active| ==> active[i].id < active[j].id
  }

  predicate Usable(active: seq<ActiveDemand>) {
    forall d :: d in active ==> d.route.pieceSize > 0
  }

  /** The blocks of the pieces that somebody waits for. */
  type Blocks = map<U32, seq<bool>>

  predicate SomeFinished(blocks: Blocks, piece: U32) {
    piece in blocks && exists b :: 0 <= b < |blocks[piece]| && blocks[piece][b]
  }

  /** The piece that holds the first byte of the demand, in the program's integer widths. */
  function BlockingPiece(d: ActiveDemand): U32
    requires d.route.pieceSize > 0
  {
    ((d.route.fileOffset + d.range.start) % (U64_MAX + 1) / d.route.pieceSize) % (U32_MAX + 1)
  }

  function ReaderFor(d: ActiveDemand, cold: bool): StreamDemand {
    StreamDemand(d.id, d.route.fileOffset, d.route.fileSize, d.route.pieceSize, d.range, Reader, cold)
  }

  function AnchorFor(a: StreamAnchor): StreamDemand {
    StreamDemand(0, a.route.fileOffset, a.route.fileSize, a.route.pieceSize, a.range,
                 if a.prefetch then Prefetch else Anchor, false)
  }

  predicate Lacks(d: ActiveDemand, id: Torrent) {
    d.route.torrent == id && d.needsData
  }

  /** The demands that are blocked on a piece of which some block is finished. */
  ghost function Warm(active: seq<ActiveDemand>, blocks: Blocks): set<U64>
    requires Usable(active)
  {
    set d | d in active && SomeFinished(blocks, BlockingPiece(d)) :: d.id
  }

  lemma WarmMember(active: seq<ActiveDemand>, blocks: Blocks, d: ActiveDemand)
    requires ById(active) && Usable(active) && d in active
    ensures d.id in Warm(active, blocks) <==> SomeFinished(blocks, BlockingPiece(d))
  {
    if d.id in Warm(active, blocks) {
      var e :| e in active && SomeFinished(blocks, BlockingPiece(e)) && e.id == d.id;
      SameId(active, d, e);
    }
  }

  lemma SameId(active: seq<ActiveDemand>, d: ActiveDemand, e: ActiveDemand)
    requires ById(active) && d in active && e in active && d.id == e.id
    ensures d == e
  {
    var i :| 0 <= i < |active| && active[i] == d;
    var j :| 0 <= j < |active| && active[j] == e;
  }

  /** `x` stands for the demand in the plan: a reader, cold exactly if the demand is not warm. */
  predicate StandsFor(x: StreamDemand, d: ActiveDemand, warm: set<U64>) {
    x == ReaderFor(d, d.id !in warm)
  }

  ghost predicate StandsForSome(x: StreamDemand, active: seq<ActiveDemand>, id: Torrent, warm: set<U64>) {
    exists d :: d in active && Lacks(d, id) && StandsFor(x, d, warm)
  }

  /** The readers of the torrent that lack data, one for each, by ascending id. */
  ghost predicate AreReaders(s: seq<StreamDemand>, active: seq<ActiveDemand>, id: Torrent, warm: set<U64>)
  {
    && (forall i, j :: 0 <= i < j < |s| ==> s[i].id < s[j].id)
    && (forall x :: x in s ==> StandsForSome(x, active, id, warm))
    && (forall d :: d in active && Lacks(d, id) ==> ReaderFor(d, d.id !in warm) in s)
  }

  /** What the plan is asked for. */
  ghost predicate Selected(s: seq<StreamDemand>, active: seq<ActiveDemand>, id: Torrent, warm: set<U64>, anchor: Option<StreamAnchor>)
  {
    if exists d :: d in active && Lacks(d, id) then AreReaders(s, active, id, warm)
    else if anchor.Some? then s == [AnchorFor(anchor.value)]
    else s == []
  }

  // ----- the program -----

  method IsCold(blocks: Blocks, piece: U32) returns (cold: bool)
    ensures cold <==> !SomeFinished(blocks, piece)
  {
    if piece !in blocks {
      return true;
    }
    for b := 0 to |blocks[piece]|
      invariant forall c :: 0 <= c < b ==> !blocks[piece][c]
    {
      if blocks[piece][b] {
        return false;
      }
    }
    return true;
  }

  lemma OlderReaders(s: seq<StreamDemand>, active: seq<ActiveDemand>, i: nat, id: Torrent, warm: set<U64>)
    requires ById(active) && i < |active| && AreReaders(s, active[..i], id, warm)
    ensures forall y :: y in s ==> y.id < active[i].id
  {
    forall y | y in s ensures y.id < active[i].id {
      assert StandsForSome(y, active[..i], id, warm);
      var e :| e in active[..i] && Lacks(e, id) && StandsFor(y, e, warm);
      var j :| 0 <= j < i && active[j] == e;
    }
  }

  lemma AppendReader(s: seq<StreamDemand>, before: seq<ActiveDemand>, d: ActiveDemand, id: Torrent, warm: set<U64>, x: StreamDemand)
    requires AreReaders(s, before, id, warm) && StandsFor(x, d, warm) && forall y :: y in s ==> y.id < d.id
    ensures AreReaders(if Lacks(d, id) then s + [x] else s, before + [d], id, warm)
  {
    forall y | y in s ensures StandsForSome(y, before + [d], id, warm) {
      assert StandsForSome(y, before, id, warm);
    }
    assert forall k :: 0 <= k < |s| ==> s[k] in s;
    if Lacks(d, id) {
      assert StandsForSome(x, before + [d], id, warm);
    }
  }

  lemma NextReader(s: seq<StreamDemand>, active: seq<ActiveDemand>, i: nat, id: Torrent, warm: set<U64>, x: StreamDemand)
    requires ById(active) && i < |active| && AreReaders(s, active[..i], id, warm) && StandsFor(x, active[i], warm)
    ensures AreReaders(if Lacks(active[i], id) then s + [x] else s, active[..i + 1], id, warm)
  {
    OlderReaders(s, active, i, id, warm);
    AppendReader(s, active[..i], active[i], id, warm, x);
    assert active[..i + 1] == active[..i] + [active[i]];
  }

  method CollectReaders(active: seq<ActiveDemand>, id: Torrent, blocks: Blocks) returns (demands: seq<StreamDemand>)
    requires ById(active) && Usable(active)
    ensures AreReaders(demands, active, id, Warm(active, blocks))
  {
    demands := [];
    ghost var warm := Warm(active, blocks);
    for i := 0 to |active|
      invariant AreReaders(demands, active[..i], id, warm)
    {
      var d := active[i];
      var cold := IsCold(blocks, BlockingPiece(d));
      WarmMember(active, blocks, d);
      NextReader(demands, active, i, id, warm, ReaderFor(d, cold));
      if d.route.torrent == id && d.needsData {
        demands := demands + [ReaderFor(d, cold)];
      }
    }
    assert active[..|active|] == active;
  }

  lemma NobodyLacks(s: seq<StreamDemand>, active: seq<ActiveDemand>, id: Torrent, warm: set<U64>)
    requires AreReaders(s, active, id, warm)
    ensures s != [] <==> exists d :: d in active && Lacks(d, id)
  {
    if s != [] {
      assert s[0] in s && StandsForSome(s[0], active, id, warm);
    }
  }

  method CollectDemands(active: seq<ActiveDemand>, id: Torrent, blocks: Blocks, anchor: Option<StreamAnchor>)
    returns (demands: seq<StreamDemand>)
    requires ById(active) && Usable(active)
    ensures Selected(demands, active, id, Warm(active, blocks), anchor)
  {
    demands := CollectReaders(active, id, blocks);
    NobodyLacks(demands, active, id, Warm(active, blocks));
    if demands == [] && anchor.Some? {
      demands := [AnchorFor(anchor.value)];
    }
  }

  // ----- what the plan makes of it -----

  /** The selection satisfies what the theorems about plans assume. */
  lemma SelectionIsPlannable(s: seq<StreamDemand>, active: seq<ActiveDemand>, id: Torrent, warm: set<U64>, anchor: Option<StreamAnchor>)
    requires Selected(s, active, id, warm, anchor)
    requires Usable(active) && (anchor.Some? ==> anchor.value.route.pieceSize > 0)
    ensures DistinctIds(s) && (forall x :: x in s ==> x.pieceSize > 0)
    ensures s != [] ==> Newest(s, s[|s| - 1])
    ensures s == [] <==> anchor == None && forall d :: d in active ==> !Lacks(d, id)
  {
    if exists d :: d in active && Lacks(d, id) {
      NobodyLacks(s, active, id, warm);
      forall x | x in s ensures x.pieceSize > 0 {
        assert StandsForSome(x, active, id, warm);
      }
    }
  }

  /** The focus of a plan made for readers. */
  lemma ReadersFocus(s: seq<StreamDemand>, active: seq<ActiveDemand>, id: Torrent, warm: set<U64>, w: StreamWindow)
    returns (focus: ActiveDemand)
    requires AreReaders(s, active, id, warm) && s != [] && PlanFor(s, w).Success?
    ensures focus in active && Lacks(focus, id) && PlanFor(s, w).value.focusedDemandId == focus.id
    ensures forall d :: d in active && Lacks(d, id) ==> d.id <= focus.id
    ensures PlanFor(s, w).value.cold <==> focus.id !in warm
  {
    var x := s[|s| - 1];
    assert x in s && Newest(s, x);
    FocusIsNewest(s, w);
    ColdExactly(s, x, w);
    assert StandsForSome(x, active, id, warm);
    focus :| focus in active && Lacks(focus, id) && StandsFor(x, focus, warm);
    forall d | d in active && Lacks(d, id) ensures d.id <= focus.id {
      assert ReaderFor(d, d.id !in warm) in s;
    }
  }

  /**
   While some demand of the torrent lacks data, its plan is focused on the newest one, as a reader, and is cold
   exactly if no block of the piece this reader is blocked on is finished.
   */
  lemma PlanServesNewest(s: seq<StreamDemand>, active: seq<ActiveDemand>, id: Torrent, blocks: Blocks,
                         anchor: Option<StreamAnchor>, w: StreamWindow, d: ActiveDemand) returns (focus: ActiveDemand)
    requires ById(active) && Usable(active) && Selected(s, active, id, Warm(active, blocks), anchor) && PlanFor(s, w).Success?
    requires d in active && Lacks(d, id)
    ensures focus in active && Lacks(focus, id) && d.id <= focus.id
    ensures PlanFor(s, w).value.focusedDemandId == focus.id
    ensures PlanFor(s, w).value.cold <==> !SomeFinished(blocks, BlockingPiece(focus))
  {
    NobodyLacks(s, active, id, Warm(active, blocks));
    focus := ReadersFocus(s, active, id, Warm(active, blocks), w);
    WarmMember(active, blocks, focus);
  }

  /** While none does, the plan serves the anchor, for which nothing ever blocks, and is cold exactly if it prefetches. */
  lemma PlanServesAnchor(s: seq<StreamDemand>, active: seq<ActiveDemand>, id: Torrent, warm: set<U64>,
                         a: StreamAnchor, w: StreamWindow, p: U32)
    requires Selected(s, active, id, warm, Some(a)) && PlanFor(s, w).Success?
    requires forall d :: d in active ==> !Lacks(d, id)
    ensures PlanFor(s, w).value.focusedDemandId == 0
    ensures PlanFor(s, w).value.cold <==> a.prefetch
    ensures PiecePriority(p, Blocking) !in PlanFor(s, w).value.pieces
  {
    var x := AnchorFor(a);
    assert s == [x] && x in s && Newest(s, x);
    FocusIsNewest(s, w);
    ColdExactly(s, x, w);
    BlockingPiecesAre(s, x, w, p);
  }
}
