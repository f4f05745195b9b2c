/** The chairlift's track painter: which painter a track piece gets, how the
    downhill and right-turn pieces reuse the uphill and left-turn painters,
    what each painter draws, which tunnels it pushes and how it leaves the
    support heights, the station's first/last detection via a fuzzy track
    lookup, and the truss supports with their fallback. */
module Chairlift {
  import opened Base
  import opened TileGrid

  /** An unsigned 16-bit value. */
  type UInt16 = x: int | 0 <= x < 0x10000

  // ---------------------------------------------------------------------
  // Sprites, tunnels and segments
  // ---------------------------------------------------------------------

  /** Chairlift sprite ids; the enumeration starts at 20500. Sprites that come
      in four directions are the first id plus the direction. */
  const SprCableFlatSwNe := 20500
  const SprCableFlatSeNw := 20501
  const SprStationCableNeSw0 := 20502
  const SprStationCableSeNw1 := 20503
  const SprStationCableNeSw2 := 20504
  const SprStationCableSeNw3 := 20505
  const SprStationColumnNeSw := 20506
  const SprStationColumnSeNw := 20507
  const SprFlatToUpCable := 20508
  const SprUpToFlatCable := 20512
  const SprCableUp := 20516
  const SprFlatToUpSupport := 20520
  const SprUpToFlatSupport := 20524
  const SprCorner := 20528
  const SprCornerSupportA := 20532
  const SprCornerSupportB := 20536
  const SprBullwheelFrame1 := 20540
  const SprEndCapNe := 20544
  const SprEndCapSe := 20545
  const SprEndCapSw := 20546
  const SprEndCapNw := 20547

  /** Tunnel styles pushed by the painters (`TUNNEL_6`, `TUNNEL_7`, `TUNNEL_8`, `TUNNEL_14`). */
  const Tunnel6 := 6
  const Tunnel7 := 7
  const Tunnel8 := 8
  const Tunnel14 := 14

  datatype Edge = EdgeNe | EdgeSe | EdgeSw | EdgeNw

  /** The colour scheme OR-ed into an image id. */
  datatype Scheme = SchemeTrack | SchemeSupports | SchemeMisc

  /** An image: a chairlift sprite by id, or one of the shared metal floor and fence sprites. */
  datatype Image = Sprite(id: nat) | FloorMetal | FenceMetal(edge: Edge)

  /** What a painter hands to the paint session, in order. `Draw` with
      `asChild` false is a parent sprite, with true a child sprite. */
  datatype PaintEvent =
    | Draw(image: Image, scheme: Scheme, asChild: bool)
    | WoodenSupports(supportType: nat, height: int)
    | MetalSupports(segment: nat, height: int, segmentHeight: int)
    | StationCovers(edge: Edge, hasFence: bool, direction: Direction, height: int)

  datatype Tunnel = Tunnel(height: int, tunnelType: nat)

  /** A painter's output: its draw calls and the tunnels it pushes on each side. */
  datatype Strokes = Strokes(draws: seq<PaintEvent>, left: seq<Tunnel>, right: seq<Tunnel>)

  /** Bit of each of the nine support segments, by segment index (`segment_offsets`). */
  function SegmentOffset(s: nat): nat
    requires s < 9
  {
    if s == 0 then 0x001 else if s == 1 then 0x040 else if s == 2 then 0x004
    else if s == 3 then 0x010 else if s == 4 then 0x100 else if s == 5 then 0x080
    else if s == 6 then 0x002 else if s == 7 then 0x020 else 0x008
  }

  const SegmentC4 := 0x100
  const SegmentC8 := 0x080
  const SegmentD0 := 0x020
  const SegmentsAll := 0x1FF

  /** Whether segment `s` is named by the segment mask. */
  predicate Addressed(mask: int, s: nat)
    requires s < 9
  {
    HasBit(mask, SegmentOffset(s))
  }

  /** `paint_util_rotate_segments`: the low eight segment bits rotate left by
      two per quarter turn; the centre bit stays. */
  function RotateSegments(mask: UInt16, rotation: Direction): UInt16
  {
    (mask / 256) * 256 + RotateByte(mask % 256, rotation * 2)
  }

  /** An eight-bit rotate left by `k` bits, `k` even and below eight. */
  function RotateByte(b: int, k: int): (r: int)
    requires 0 <= b < 256 && k in {0, 2, 4, 6}
    ensures 0 <= r < 256
    ensures k == 0 ==> r == b
  {
    if k == 0 then b
    else if k == 2 then (b % 64) * 4 + b / 64
    else if k == 4 then (b % 16) * 16 + b / 16
    else (b % 4) * 64 + b / 4
  }

  /** A quarter turn followed by three more brings every segment mask back. */
  lemma FullTurnRestoresSegments(mask: UInt16)
    ensures RotateSegments(RotateSegments(mask, 1), 3) == mask
  {
    var b := mask % 256;
    var a := RotateByte(b, 2);
    SplitByte(mask / 256, a);
    ByteFullTurn(b);
  }

  /** Rotating a byte left by two and then by six gives it back. */
  lemma ByteFullTurn(b: int)
    requires 0 <= b < 256
    ensures RotateByte(RotateByte(b, 2), 6) == b
  {
    var hi, lo := b / 64, b % 64;
    var a := RotateByte(b, 2);
    assert a == lo * 4 + hi;
    assert a % 4 == hi && a / 4 == lo;
  }

  /** The high part and the low byte of a mask are recovered by `/ 256` and `% 256`. */
  lemma SplitByte(high: int, low: int)
    requires 0 <= low < 256
    ensures (high * 256 + low) / 256 == high && (high * 256 + low) % 256 == low
  {
  }

  /** The two edge segments under the left quarter turn in direction `d`. */
  function TurnSegments(d: Direction): set<nat>
  {
    if d == 0 then {5, 7} else if d == 1 then {5, 6} else if d == 2 then {6, 8} else {7, 8}
  }

  /** The left quarter turn's supports go on two edge segments, turning with the piece. */
  lemma TurnSupportSegments(d: Direction)
    ensures forall s :: 0 <= s < 9 ==>
      (Addressed(RotateSegments(SegmentC8 + SegmentD0, d), s) <==> s in TurnSegments(d))
  {
    var m := RotateSegments(SegmentC8 + SegmentD0, d);
    TurnMask(d);
    forall s | 0 <= s < 9
      ensures Addressed(m, s) <==> s in TurnSegments(d)
    {
      SegmentsOfTurnMask(m, s);
    }
  }

  /** The turn's mask in each direction. */
  lemma TurnMask(d: Direction)
    ensures RotateSegments(SegmentC8 + SegmentD0, d) ==
      if d == 0 then 0xA0 else if d == 1 then 0x82 else if d == 2 then 0x0A else 0x28
  {
    assert SegmentC8 + SegmentD0 == 0xA0;
    SplitByte(0, 0xA0);
    if d == 0 {
    } else if d == 1 {
      assert RotateByte(0xA0, 2) == 0x82;
    } else if d == 2 {
      assert RotateByte(0xA0, 4) == 0x0A;
    } else {
      assert RotateByte(0xA0, 6) == 0x28;
    }
  }

  /** Which segments each rotation of the turn's mask addresses, segment by segment. */
  lemma SegmentsOfTurnMask(m: int, s: nat)
    requires m in {0xA0, 0x82, 0x0A, 0x28} && s < 9
    ensures m == 0xA0 ==> (Addressed(m, s) <==> s == 5 || s == 7)
    ensures m == 0x82 ==> (Addressed(m, s) <==> s == 5 || s == 6)
    ensures m == 0x0A ==> (Addressed(m, s) <==> s == 6 || s == 8)
    ensures m == 0x28 ==> (Addressed(m, s) <==> s == 7 || s == 8)
  {
    if s == 0 {} else if s == 1 {} else if s == 2 {} else if s == 3 {} else if s == 4 {}
    else if s == 5 {} else if s == 6 {} else if s == 7 {} else {}
  }

  /** The mask covering every segment addresses each of the nine. */
  lemma AllSegmentsAddressed()
    ensures forall s :: 0 <= s < 9 ==> Addressed(SegmentsAll, s)
  {
  }

  // ---------------------------------------------------------------------
  // Supports
  // ---------------------------------------------------------------------

  /** Truss support calls for the addressed segments below `k`, in index
      order, each seeing the segment height in `seen`. */
  function SupportCalls(mask: int, height: int, seen: seq<int>, k: nat): seq<PaintEvent>
    requires k <= 9 && |seen| == 9
  {
    if k == 0 then []
    else SupportCalls(mask, height, seen, k - 1) + (if Addressed(mask, k - 1) then [MetalSupports(k - 1, height, seen[k - 1])] else [])
  }

  /** A round makes one call for each addressed segment below `k` and no
      other, each seeing that segment's height. */
  lemma {:induction false} SupportCallsShape(mask: int, height: int, seen: seq<int>, k: nat)
    requires k <= 9 && |seen| == 9
    ensures forall i :: 0 <= i < |SupportCalls(mask, height, seen, k)| ==>
      var e := SupportCalls(mask, height, seen, k)[i];
      && e.MetalSupports? && e.segment < k && Addressed(mask, e.segment)
      && e.height == height && e.segmentHeight == seen[e.segment]
    ensures forall s :: 0 <= s < k && Addressed(mask, s) ==>
      exists i :: 0 <= i < |SupportCalls(mask, height, seen, k)| && SupportCalls(mask, height, seen, k)[i].segment == s
  {
    if k > 0 {
      SupportCallsShape(mask, height, seen, k - 1);
      var front := SupportCalls(mask, height, seen, k - 1);
      var r := SupportCalls(mask, height, seen, k);
      assert forall i :: 0 <= i < |front| ==> r[i] == front[i];
      assert Addressed(mask, k - 1) ==> r[|front|].segment == k - 1;
    }
  }

  /** Whether any truss attempt below `k` was accepted by the support painter. */
  function AnyAccepted(mask: int, height: int, seen: seq<int>, accepts: (nat, int, int) -> bool, k: nat): (r: bool)
    requires k <= 9 && |seen| == 9
    ensures r <==> exists s :: 0 <= s < k && Addressed(mask, s) && accepts(s, height, seen[s])
  {
    if k == 0 then false
    else AnyAccepted(mask, height, seen, accepts, k - 1) || (Addressed(mask, k - 1) && accepts(k - 1, height, seen[k - 1]))
  }

  /** `chairlift_paint_util_draw_supports`: one truss attempt per addressed
      segment; only if all of them fail, a second round in which each
      addressed segment is presented at the general support height. */
  function SupportEvents(mask: int, height: int, seen: seq<int>, general: int, accepts: (nat, int, int) -> bool): seq<PaintEvent>
    requires |seen| == 9
  {
    SupportCalls(mask, height, seen, 9)
      + (if AnyAccepted(mask, height, seen, accepts, 9) then [] else SupportCalls(mask, height, Repeat(general, 9), 9))
  }

  /** The support rule: attempts go only to addressed segments; the fallback
      round happens exactly when no attempt succeeded, and then every call sees
      the general support height. */
  lemma SupportRule(mask: int, height: int, seen: seq<int>, general: int, accepts: (nat, int, int) -> bool)
    requires |seen| == 9
    ensures var r := SupportEvents(mask, height, seen, general, accepts);
      var n := |SupportCalls(mask, height, seen, 9)|;
      && n <= |r|
      && (forall i :: 0 <= i < |r| ==> r[i].MetalSupports? && r[i].segment < 9 && Addressed(mask, r[i].segment) && r[i].height == height)
      && (forall i :: 0 <= i < n ==> r[i].segmentHeight == seen[r[i].segment])
      && (forall s :: 0 <= s < 9 && Addressed(mask, s) ==> exists i :: 0 <= i < n && r[i].segment == s)
      && ((exists s :: 0 <= s < 9 && Addressed(mask, s) && accepts(s, height, seen[s])) ==> |r| == n)
      && (!(exists s :: 0 <= s < 9 && Addressed(mask, s) && accepts(s, height, seen[s])) ==>
            |r| == 2 * n && forall i :: n <= i < |r| ==> r[i].segmentHeight == general)
  {
    var first := SupportCalls(mask, height, seen, 9);
    SupportCallsShape(mask, height, seen, 9);
    var r := SupportEvents(mask, height, seen, general, accepts);
    if AnyAccepted(mask, height, seen, accepts, 9) {
      assert r == first;
    } else {
      assert r == first + SupportCalls(mask, height, Repeat(general, 9), 9);
      FallbackRound(mask, height, seen, general);
    }
  }

  /** Both rounds together: the first round's calls unchanged, then as many
      again, each seeing the general support height. */
  lemma FallbackRound(mask: int, height: int, seen: seq<int>, general: int)
    requires |seen| == 9
    ensures var first := SupportCalls(mask, height, seen, 9);
      var both := first + SupportCalls(mask, height, Repeat(general, 9), 9);
      && |both| == 2 * |first|
      && (forall i :: 0 <= i < |both| ==>
            both[i].MetalSupports? && both[i].segment < 9 && Addressed(mask, both[i].segment) && both[i].height == height)
      && (forall i :: 0 <= i < |first| ==> both[i] == first[i])
      && (forall i :: |first| <= i < |both| ==> both[i].segmentHeight == general)
  {
    var first := SupportCalls(mask, height, seen, 9);
    var g := Repeat(general, 9);
    var fallback := SupportCalls(mask, height, g, 9);
    SupportCallsShape(mask, height, seen, 9);
    SupportCallsShape(mask, height, g, 9);
    CallsCount(mask, height, seen, g, 9);
    var both := first + fallback;
    forall i | |first| <= i < |both|
      ensures both[i].segmentHeight == general
    {
      assert both[i] == fallback[i - |first|];
    }
  }

  /** The number of calls in a round does not depend on the heights seen. */
  lemma {:induction false} CallsCount(mask: int, height: int, seen1: seq<int>, seen2: seq<int>, k: nat)
    requires k <= 9 && |seen1| == 9 && |seen2| == 9
    ensures |SupportCalls(mask, height, seen1, k)| == |SupportCalls(mask, height, seen2, k)|
  {
    if k > 0 {
      CallsCount(mask, height, seen1, seen2, k - 1);
    }
  }

  // ---------------------------------------------------------------------
  // Fuzzy track lookup and station ends
  // ---------------------------------------------------------------------

  /** A track element of the ride at height `z` or one unit below. */
  predicate FuzzyMatch(e: TileElement, z: int, rideIndex: int)
  {
    e.data.Track? && e.data.rideIndex == rideIndex && (e.baseHeight == z || e.baseHeight == z - 1)
  }

  /** The first fuzzy match from element `q` up to and including the tile's last element. */
  function FuzzyScan(a: seq<TileElement>, q: nat, z: int, rideIndex: int): (r: Option<nat>)
    requires q < |a| && LastForTile(a, q).Some?
    ensures r.Some? ==> q <= r.value <= LastForTile(a, q).value && FuzzyMatch(a[r.value], z, rideIndex)
    ensures r.Some? ==> forall p :: q <= p < r.value ==> !FuzzyMatch(a[p], z, rideIndex)
    ensures r.None? ==> forall p :: q <= p <= LastForTile(a, q).value ==> !FuzzyMatch(a[p], z, rideIndex)
    decreases |a| - q
  {
    if FuzzyMatch(a[q], z, rideIndex) then Some(q)
    else if IsLastForTile(a[q]) then None
    else FuzzyScan(a, q + 1, z, rideIndex)
  }

  /** `chairlift_paint_util_map_get_track_element_at_from_ride_fuzzy` at pixel
      position (x, y): nothing for a tile the map does not have, otherwise the
      first fuzzy match on the tile. */
  function FuzzyTrack(w: World, x: int, y: int, z: int, rideIndex: int): (r: Option<nat>)
    requires WorldValid(w)
    ensures r.Some? ==> r.value < |w.arena| && FuzzyMatch(w.arena[r.value], z, rideIndex)
    ensures r.None? <==> ((x / 32, y / 32) !in w.firstAt ||
      var first := w.firstAt[(x / 32, y / 32)];
      forall p :: first <= p <= LastForTile(w.arena, first).value ==> !FuzzyMatch(w.arena[p], z, rideIndex))
  {
    var t := (x / 32, y / 32);
    if t !in w.firstAt then None else FuzzyScan(w.arena, w.firstAt[t], z, rideIndex)
  }

  /** The lookup as the source does it: a do-while walk over the tile's elements. */
  method FindTrackFuzzy(w: World, x: int, y: int, z: int, rideIndex: int) returns (r: Option<nat>)
    requires WorldValid(w)
    ensures r == FuzzyTrack(w, x, y, z, rideIndex)
  {
    var t := (x / 32, y / 32);
    if t !in w.firstAt {
      return None;
    }
    var q := w.firstAt[t];
    while true
      invariant q < |w.arena| && LastForTile(w.arena, q).Some?
      invariant FuzzyScan(w.arena, q, z, rideIndex) == FuzzyTrack(w, x, y, z, rideIndex)
      decreases |w.arena| - q
    {
      var e := w.arena[q];
      if FuzzyMatch(e, z, rideIndex) {
        return Some(q);
      }
      if IsLastForTile(e) {
        return None;
      }
      q := q + 1;
    }
  }

  /** The C cast to a signed 16-bit coordinate. */
  function ToInt16(v: int): (r: int)
    ensures -0x8000 <= r < 0x8000
    ensures -0x8000 <= v < 0x8000 ==> r == v
    ensures (r - v) % 0x10000 == 0
  {
    (v + 0x8000) % 0x10000 - 0x8000
  }

  /** `TileDirectionDelta`: one tile step in each direction, in pixels. */
  function TileDirectionDelta(d: Direction): (int, int)
  {
    [(-32, 0), (0, 32), (32, 0), (0, -32)][d]
  }

  /** `chairlift_paint_util_is_first_track`: a begin-station piece with no
      track of the ride one tile behind it. */
  function IsFirstTrack(w: World, e: TileElement, pos: (int, int), rideIndex: int): (r: bool)
    requires WorldValid(w) && e.data.Track?
    ensures r ==> e.data.trackType == BeginStation
  {
    if e.data.trackType != BeginStation then false
    else
      var delta := TileDirectionDelta(e.direction);
      FuzzyTrack(w, ToInt16(pos.0 - delta.0), ToInt16(pos.1 - delta.1), e.baseHeight, rideIndex).None?
  }

  /** `chairlift_paint_util_is_last_track`: an end-station piece with no track
      of the ride one tile ahead of it. */
  function IsLastTrack(w: World, e: TileElement, pos: (int, int), rideIndex: int): (r: bool)
    requires WorldValid(w) && e.data.Track?
    ensures r ==> e.data.trackType == EndStation
  {
    if e.data.trackType != EndStation then false
    else
      var delta := TileDirectionDelta(e.direction);
      FuzzyTrack(w, ToInt16(pos.0 + delta.0), ToInt16(pos.1 + delta.1), e.baseHeight, rideIndex).None?
  }

  /** The last-station test is the first-station test of the same piece turned
      around: looking ahead is looking behind in the opposite direction. */
  lemma LastIsFirstTurnedAround(w: World, e: TileElement, pos: (int, int), rideIndex: int)
    requires WorldValid(w) && e.data.Track? && e.data.trackType == EndStation
    ensures IsLastTrack(w, e, pos, rideIndex) ==
      IsFirstTrack(w, e.(data := e.data.(trackType := BeginStation), direction := (e.direction + 2) % 4), pos, rideIndex)
  {
    var turned := e.(data := e.data.(trackType := BeginStation), direction := (e.direction + 2) % 4);
    assert TileDirectionDelta(turned.direction).0 == -TileDirectionDelta(e.direction).0;
    assert TileDirectionDelta(turned.direction).1 == -TileDirectionDelta(e.direction).1;
  }

  /** A piece is never both the first and the last station piece. */
  lemma StationEndsExclusive(w: World, e: TileElement, pos: (int, int), rideIndex: int)
    requires WorldValid(w) && e.data.Track?
    ensures !(IsFirstTrack(w, e, pos, rideIndex) && IsLastTrack(w, e, pos, rideIndex))
  {
  }

  /** The first-station test as the painter runs it, through the fuzzy lookup. */
  method CheckFirstTrack(w: World, e: TileElement, pos: (int, int), rideIndex: int) returns (r: bool)
    requires WorldValid(w) && e.data.Track?
    ensures r == IsFirstTrack(w, e, pos, rideIndex)
  {
    if e.data.trackType != BeginStation {
      return false;
    }
    var delta := TileDirectionDelta(e.direction);
    var behind := FindTrackFuzzy(w, ToInt16(pos.0 - delta.0), ToInt16(pos.1 - delta.1), e.baseHeight, rideIndex);
    r := behind.None?;
  }

  /** The last-station test as the painter runs it, through the fuzzy lookup. */
  method CheckLastTrack(w: World, e: TileElement, pos: (int, int), rideIndex: int) returns (r: bool)
    requires WorldValid(w) && e.data.Track?
    ensures r == IsLastTrack(w, e, pos, rideIndex)
  {
    if e.data.trackType != EndStation {
      return false;
    }
    var delta := TileDirectionDelta(e.direction);
    var ahead := FindTrackFuzzy(w, ToInt16(pos.0 + delta.0), ToInt16(pos.1 + delta.1), e.baseHeight, rideIndex);
    r := ahead.None?;
  }

  // ---------------------------------------------------------------------
  // What each painter draws
  // ---------------------------------------------------------------------

  /** `chairlift_bullwheel_frames[rotation / 16384]`: the 16-bit wheel rotation
      always selects one of the four frames. */
  function BullwheelFrame(rotation: UInt16): (id: nat)
    ensures SprBullwheelFrame1 <= id < SprBullwheelFrame1 + 4
  {
    SprBullwheelFrame1 + rotation / 16384
  }

  function Parent(id: nat): PaintEvent { Draw(Sprite(id), SchemeTrack, false) }
  function Child(id: nat): PaintEvent { Draw(Sprite(id), SchemeTrack, true) }
  function SupportSprite(id: nat): PaintEvent { Draw(Sprite(id), SchemeSupports, false) }

  /** A station's end of line along its axis: at the near or far end of the
      station a bullwheel group replaces that end's column; elsewhere both
      columns stand. */
  function EndOfLine(nearEnd: bool, farEnd: bool, nearCap: seq<PaintEvent>, farCap: seq<PaintEvent>, column: PaintEvent): seq<PaintEvent>
  {
    (if nearEnd then nearCap else if farEnd then farCap else [])
    + (if !farEnd then [column] else [])
    + (if !nearEnd then [column] else [])
  }

  /** The north-east/south-west station's end of line. */
  function NeSwEnds(d: Direction, isStart: bool, isEnd: bool, rotation: UInt16): seq<PaintEvent>
  {
    var frontEnd := (d == 0 && isStart) || (d == 2 && isEnd);
    var backEnd := !frontEnd && ((d == 2 && isStart) || (d == 0 && isEnd));
    EndOfLine(frontEnd, backEnd,
      [Draw(FenceMetal(EdgeSw), SchemeTrack, false), Parent(BullwheelFrame(rotation)), Child(SprEndCapNe)],
      [Parent(BullwheelFrame(rotation)), Child(SprEndCapSw)],
      Parent(SprStationColumnNeSw))
  }

  /** The south-east/north-west station's end of line. */
  function SeNwEnds(d: Direction, isStart: bool, isEnd: bool, rotation: UInt16): seq<PaintEvent>
  {
    var leftEnd := (d == 1 && isStart) || (d == 3 && isEnd);
    var rightEnd := !leftEnd && ((d == 3 && isStart) || (d == 1 && isEnd));
    EndOfLine(leftEnd, rightEnd,
      [Parent(BullwheelFrame(rotation)), Child(SprEndCapSe)],
      [Draw(FenceMetal(EdgeSe), SchemeTrack, false), Parent(BullwheelFrame(rotation)), Child(SprEndCapNw)],
      Parent(SprStationColumnSeNw))
  }

  /** One side of a station: its fence when the fence test reports one,
      then the station covers, told whether the fence was there. */
  function SideEvents(edge: Edge, hasFence: bool, fenceAsChild: bool, d: Direction, h: int): seq<PaintEvent>
  {
    (if hasFence then [Draw(FenceMetal(edge), SchemeTrack, fenceAsChild)] else []) + [StationCovers(edge, hasFence, d, h)]
  }

  /** The station's supports, its cable (only between the ends) and its floor. */
  function StationBase(supportType: nat, cable: nat, h: int, isStart: bool, isEnd: bool): seq<PaintEvent>
  {
    [WoodenSupports(supportType, h)]
    + (if !isStart && !isEnd then [Parent(cable)] else [])
    + [Draw(FloorMetal, SchemeSupports, false)]
  }

  /** The north-east/south-west station's supports, cable, floor, side
      fences and covers, drawn before its end of line. */
  function NeSwHead(d: Direction, h: int, isStart: bool, isEnd: bool, fences: set<Edge>): seq<PaintEvent>
  {
    StationBase(0, if d == 0 then SprStationCableNeSw0 else SprStationCableNeSw2, h, isStart, isEnd)
    + SideEvents(EdgeNw, EdgeNw in fences, true, d, h)
    + (if (d == 2 && isStart) || (d == 0 && isEnd) then [Draw(FenceMetal(EdgeNe), SchemeTrack, true)] else [])
    + SideEvents(EdgeSe, EdgeSe in fences, false, d, h)
  }

  /** The station painter for a piece running north-east to south-west. */
  function StationNeSw(d: Direction, h: int, isStart: bool, isEnd: bool, fences: set<Edge>, rotation: UInt16): Strokes
  {
    Strokes(NeSwHead(d, h, isStart, isEnd, fences) + NeSwEnds(d, isStart, isEnd, rotation), [Tunnel(h, Tunnel6)], [])
  }

  /** The south-east/north-west station's part before its end of line. */
  function SeNwHead(d: Direction, h: int, isStart: bool, isEnd: bool, fences: set<Edge>): seq<PaintEvent>
  {
    StationBase(1, if d == 1 then SprStationCableSeNw1 else SprStationCableSeNw3, h, isStart, isEnd)
    + SideEvents(EdgeNe, EdgeNe in fences, true, d, h)
    + (if (d == 1 && isStart) || (d == 3 && isEnd) then [Draw(FenceMetal(EdgeNw), SchemeTrack, true)] else [])
    + SideEvents(EdgeSw, EdgeSw in fences, false, d, h)
  }

  /** The station painter for a piece running south-east to north-west; the
      right tunnel goes with the right-hand column. */
  function StationSeNw(d: Direction, h: int, isStart: bool, isEnd: bool, fences: set<Edge>, rotation: UInt16): Strokes
  {
    Strokes(SeNwHead(d, h, isStart, isEnd, fences) + SeNwEnds(d, isStart, isEnd, rotation), [], SeNwRightTunnel(d, h, isStart, isEnd))
  }

  /** The south-east/north-west station's right tunnel, pushed with the right-hand column. */
  function SeNwRightTunnel(d: Direction, h: int, isStart: bool, isEnd: bool): seq<Tunnel>
  {
    var rightEnd := !((d == 1 && isStart) || (d == 3 && isEnd)) && ((d == 3 && isStart) || (d == 1 && isEnd));
    if !rightEnd then [Tunnel(h, Tunnel6)] else []
  }

  function FlatStrokes(d: Direction, h: int): Strokes
  {
    if d % 2 == 1 then Strokes([Parent(SprCableFlatSeNw)], [], [Tunnel(h, Tunnel6)])
    else Strokes([Parent(SprCableFlatSwNe)], [Tunnel(h, Tunnel6)], [])
  }

  function Up25Strokes(d: Direction, h: int): Strokes
  {
    var draws := [Parent(SprCableUp + d)];
    if d == 0 then Strokes(draws, [Tunnel(h - 8, Tunnel7)], [])
    else if d == 1 then Strokes(draws, [], [Tunnel(h + 8, Tunnel8)])
    else if d == 2 then Strokes(draws, [Tunnel(h + 8, Tunnel8)], [])
    else Strokes(draws, [], [Tunnel(h - 8, Tunnel7)])
  }

  function FlatToUp25Strokes(d: Direction, h: int): Strokes
  {
    var draws := [Parent(SprFlatToUpCable + d), SupportSprite(SprFlatToUpSupport + d)];
    if d == 0 then Strokes(draws, [Tunnel(h, Tunnel6)], [])
    else if d == 1 then Strokes(draws, [], [Tunnel(h, Tunnel8)])
    else if d == 2 then Strokes(draws, [Tunnel(h, Tunnel8)], [])
    else Strokes(draws, [], [Tunnel(h, Tunnel6)])
  }

  function Up25ToFlatStrokes(d: Direction, h: int): Strokes
  {
    var draws := [Parent(SprUpToFlatCable + d), SupportSprite(SprUpToFlatSupport + d)];
    if d == 0 then Strokes(draws, [Tunnel(h - 8, Tunnel6)], [])
    else if d == 1 then Strokes(draws, [], [Tunnel(h + 8, Tunnel14)])
    else if d == 2 then Strokes(draws, [Tunnel(h + 8, Tunnel14)], [])
    else Strokes(draws, [], [Tunnel(h - 8, Tunnel6)])
  }

  function LeftTurnStrokes(d: Direction, h: int): Strokes
  {
    var draws := [Parent(SprCorner + d), SupportSprite(SprCornerSupportA + d), SupportSprite(SprCornerSupportB + d)];
    if d == 0 then Strokes(draws, [Tunnel(h, Tunnel6)], [])
    else if d == 1 then Strokes(draws, [], [])
    else if d == 2 then Strokes(draws, [], [Tunnel(h, Tunnel6)])
    else Strokes(draws, [Tunnel(h, Tunnel6)], [Tunnel(h, Tunnel6)])
  }

  /** A painter's sprites followed by its support calls. */
  function WithSupports(s: Strokes, supports: seq<PaintEvent>): Strokes
  {
    Strokes(s.draws + supports, s.left, s.right)
  }

  // ---------------------------------------------------------------------
  // Painters and dispatch
  // ---------------------------------------------------------------------

  datatype Painter =
    | StationPainter
    | FlatPainter
    | Up25Painter
    | FlatToUp25Painter
    | Up25ToFlatPainter
    | Down25Painter
    | FlatToDown25Painter
    | Down25ToFlatPainter
    | LeftQuarterTurnPainter
    | RightQuarterTurnPainter

  /** `get_track_paint_function_chairlift`. */
  function TrackPaintFunction(t: TrackElem): (r: Option<Painter>)
    ensures r.None? <==> t.OtherTrack?
  {
    match t
      case BeginStation => Some(StationPainter)
      case MiddleStation => Some(StationPainter)
      case EndStation => Some(StationPainter)
      case Flat => Some(FlatPainter)
      case FlatToUp25 => Some(FlatToUp25Painter)
      case Up25 => Some(Up25Painter)
      case Up25ToFlat => Some(Up25ToFlatPainter)
      case FlatToDown25 => Some(FlatToDown25Painter)
      case Down25 => Some(Down25Painter)
      case Down25ToFlat => Some(Down25ToFlatPainter)
      case LeftQuarterTurn1Tile => Some(LeftQuarterTurnPainter)
      case RightQuarterTurn1Tile => Some(RightQuarterTurnPainter)
      case OtherTrack(_) => None
  }

  predicate IsStationPiece(t: TrackElem)
  {
    t == BeginStation || t == MiddleStation || t == EndStation
  }

  /** Only the three station pieces share a painter; every other supported
      piece has its own. */
  lemma PaintersDistinguishPieces(t1: TrackElem, t2: TrackElem)
    requires TrackPaintFunction(t1).Some? && TrackPaintFunction(t1) == TrackPaintFunction(t2)
    ensures t1 == t2 || (IsStationPiece(t1) && IsStationPiece(t2))
  {
  }

  /** The painter and direction a delegating painter hands over to: the three
      downhill pieces are the uphill ones turned around, the right turn is the
      left turn rotated by three quarters. */
  function Canonical(p: Painter, d: Direction): (Painter, Direction)
  {
    match p
      case Down25Painter => (Up25Painter, (d + 2) % 4)
      case FlatToDown25Painter => (Up25ToFlatPainter, (d + 2) % 4)
      case Down25ToFlatPainter => (FlatToUp25Painter, (d + 2) % 4)
      case RightQuarterTurnPainter => (LeftQuarterTurnPainter, (d + 3) % 4)
      case _ => (p, d)
  }

  predicate DrawsItself(p: Painter)
  {
    !(p.Down25Painter? || p.FlatToDown25Painter? || p.Down25ToFlatPainter? || p.RightQuarterTurnPainter?)
  }

  /** Delegation lands on a painter that draws itself, in a valid direction,
      and each delegating painter reaches every direction of its target exactly once. */
  lemma DelegationWellFormed(p: Painter, d1: Direction, d2: Direction)
    ensures DrawsItself(Canonical(p, d1).0)
    ensures 0 <= Canonical(p, d1).1 < 4
    ensures Canonical(Canonical(p, d1).0, Canonical(p, d1).1) == Canonical(p, d1)
    ensures Canonical(p, d1) == Canonical(p, d2) ==> d1 == d2
  {
  }

  /** The general support height each painter leaves above the piece's base. */
  function Clearance(p: Painter): nat
    decreases if DrawsItself(p) then 0 else 1
  {
    match p
      case StationPainter => 32
      case FlatPainter => 32
      case Up25Painter => 56
      case FlatToUp25Painter => 48
      case Up25ToFlatPainter => 40
      case LeftQuarterTurnPainter => 32
      case _ => Clearance(Canonical(p, 0).0)
  }

  /** Clearances by piece: 32 flat, station and turns; 56 on the slope; 48 for
      flat-to-up and its mirror down-to-flat; 40 for up-to-flat and flat-to-down. */
  lemma ClearanceTable(p: Painter)
    ensures p in {StationPainter, FlatPainter, LeftQuarterTurnPainter, RightQuarterTurnPainter} ==> Clearance(p) == 32
    ensures p in {Up25Painter, Down25Painter} ==> Clearance(p) == 56
    ensures p in {FlatToUp25Painter, Down25ToFlatPainter} ==> Clearance(p) == 48
    ensures p in {Up25ToFlatPainter, FlatToDown25Painter} ==> Clearance(p) == 40
  {
  }

  /** What the painter needs to know about the piece and its ride: the map, the
      element, the session's map position, the ride index, the ride's bullwheel
      rotation, and which edges the fence test reports. */
  datatype Context = Context(
    world: World,
    element: TileElement,
    pos: (int, int),
    rideIndex: nat,
    bullwheelRotation: UInt16,
    fences: set<Edge>)

  predicate ContextValid(c: Context)
  {
    WorldValid(c.world) && c.element.data.Track?
  }

  /** The conversion of a painter's height to the unsigned 16-bit height
      parameter of the support helper. */
  function AsUInt16(h: int): (r: int)
    ensures 0 <= r < 0x10000
    ensures 0 <= h < 0x10000 ==> r == h
  {
    h % 0x10000
  }

  /** `chairlift_paint_station`: the piece's axis picks the painter. */
  function StationStrokes(d: Direction, h: int, c: Context): Strokes
    requires ContextValid(c)
  {
    var isStart := IsFirstTrack(c.world, c.element, c.pos, c.rideIndex);
    var isEnd := IsLastTrack(c.world, c.element, c.pos, c.rideIndex);
    if d % 2 == 1 then StationSeNw(d, h, isStart, isEnd, c.fences, c.bullwheelRotation)
    else StationNeSw(d, h, isStart, isEnd, c.fences, c.bullwheelRotation)
  }

  /** Everything painter `p` emits in direction `d` at height `h`, given the
      segment heights and general support height it starts from. */
  function PaintSpec(p: Painter, d: Direction, h: int, c: Context, seen: seq<int>, general: int, accepts: (nat, int, int) -> bool): Strokes
    requires ContextValid(c) && |seen| == 9
    decreases if DrawsItself(p) then 0 else 1
  {
    match p
      case StationPainter => StationStrokes(d, h, c)
      case FlatPainter => FlatStrokes(d, h)
      case Up25Painter => Up25Strokes(d, h)
      case FlatToUp25Painter => WithSupports(FlatToUp25Strokes(d, h), SupportEvents(SegmentC4, AsUInt16(h), seen, general, accepts))
      case Up25ToFlatPainter => WithSupports(Up25ToFlatStrokes(d, h), SupportEvents(SegmentC4, AsUInt16(h), seen, general, accepts))
      case LeftQuarterTurnPainter =>
        WithSupports(LeftTurnStrokes(d, h), SupportEvents(RotateSegments(SegmentC8 + SegmentD0, d), AsUInt16(h), seen, general, accepts))
      case _ => PaintSpec(Canonical(p, d).0, Canonical(p, d).1, h, c, seen, general, accepts)
  }

  /** A delegating painter paints exactly what its target paints in the handed-over direction. */
  lemma DelegationPaintsTarget(p: Painter, d: Direction, h: int, c: Context, seen: seq<int>, general: int, accepts: (nat, int, int) -> bool)
    requires ContextValid(c) && |seen| == 9
    ensures PaintSpec(p, d, h, c, seen, general, accepts) ==
      PaintSpec(Canonical(p, d).0, Canonical(p, d).1, h, c, seen, general, accepts)
    ensures Clearance(p) == Clearance(Canonical(p, d).0)
  {
  }

  /** A track-scheme parent sprite from the column id upwards: the columns and bullwheel frames. */
  predicate EndSprite(x: PaintEvent)
  {
    x.Draw? && x.image.Sprite? && x.image.id >= SprStationColumnNeSw && !x.asChild && x.scheme == SchemeTrack
  }

  /** At an end of the station its cap carries the single bullwheel and one
      column remains; elsewhere both columns stand and no bullwheel turns. */
  lemma EndOfLineCounts(nearEnd: bool, farEnd: bool, nearCap: seq<PaintEvent>, farCap: seq<PaintEvent>, column: PaintEvent, wheel: PaintEvent)
    requires !(nearEnd && farEnd) && wheel != column
    requires column !in nearCap && column !in farCap
    requires multiset(nearCap)[wheel] == 1 && multiset(farCap)[wheel] == 1
    ensures var ends := EndOfLine(nearEnd, farEnd, nearCap, farCap, column);
      && multiset(ends)[column] == (if nearEnd || farEnd then 1 else 2)
      && multiset(ends)[wheel] == (if nearEnd || farEnd then 1 else 0)
  {
    var cap := if nearEnd then nearCap else if farEnd then farCap else [];
    assert multiset(cap)[column] == 0;
    var ends := EndOfLine(nearEnd, farEnd, nearCap, farCap, column);
    assert multiset(ends) == multiset(cap) + multiset(if !farEnd then [column] else []) + multiset(if !nearEnd then [column] else []);
  }

  /** The odd directions are the south-east/north-west ones. */
  lemma DirectionParity(d: Direction)
    ensures d % 2 == 1 <==> d == 1 || d == 3
    ensures d % 2 == 0 <==> d == 0 || d == 2
  {
    if d == 0 {} else if d == 1 {} else if d == 2 {} else {}
  }

  /** A three-event end cap around a bullwheel that is neither its first nor
      its last event holds that bullwheel once and no column. */
  lemma CapCounts(first: PaintEvent, wheel: PaintEvent, last: PaintEvent, column: PaintEvent)
    requires wheel.Draw? && wheel.image.Sprite? && !wheel.asChild && last.Draw? && last.asChild
    requires column.Draw? && column.image.Sprite? && column.image.id != wheel.image.id && !column.asChild
    requires first == last || (first.Draw? && first.image.FenceMetal?)
    ensures first != wheel && last != wheel && first != column && last != column
    ensures multiset([first, wheel, last])[wheel] == 1 && column !in [first, wheel, last]
    ensures multiset([wheel, last])[wheel] == 1 && column !in [wheel, last]
  {
    assert multiset([first, wheel, last]) == multiset{first, wheel, last};
    assert multiset([wheel, last]) == multiset{wheel, last};
  }

  /** North-east/south-west ends: one column and one bullwheel at the first
      or last piece, two columns and no bullwheel otherwise. */
  lemma NeSwEndsCounts(d: Direction, isStart: bool, isEnd: bool, rotation: UInt16)
    requires !(isStart && isEnd)
    ensures var ends := NeSwEnds(d, isStart, isEnd, rotation);
      && multiset(ends)[Parent(SprStationColumnNeSw)] == (if (isStart || isEnd) && d % 2 == 0 then 1 else 2)
      && multiset(ends)[Parent(BullwheelFrame(rotation))] == (if (isStart || isEnd) && d % 2 == 0 then 1 else 0)
  {
    var b := Parent(BullwheelFrame(rotation));
    var column := Parent(SprStationColumnNeSw);
    var fence := Draw(FenceMetal(EdgeSw), SchemeTrack, false);
    var near := [fence, b, Child(SprEndCapNe)];
    var far := [b, Child(SprEndCapSw)];
    CapCounts(fence, b, Child(SprEndCapNe), column);
    CapCounts(Child(SprEndCapSw), b, Child(SprEndCapSw), column);
    var frontEnd := (d == 0 && isStart) || (d == 2 && isEnd);
    var backEnd := !frontEnd && ((d == 2 && isStart) || (d == 0 && isEnd));
    DirectionParity(d);
    assert frontEnd || backEnd <==> (isStart || isEnd) && d % 2 == 0;
    assert NeSwEnds(d, isStart, isEnd, rotation) == EndOfLine(frontEnd, backEnd, near, far, column);
    EndOfLineCounts(frontEnd, backEnd, near, far, column, b);
  }

  /** South-east/north-west ends, likewise. */
  lemma SeNwEndsCounts(d: Direction, isStart: bool, isEnd: bool, rotation: UInt16)
    requires !(isStart && isEnd)
    ensures var ends := SeNwEnds(d, isStart, isEnd, rotation);
      && multiset(ends)[Parent(SprStationColumnSeNw)] == (if (isStart || isEnd) && d % 2 == 1 then 1 else 2)
      && multiset(ends)[Parent(BullwheelFrame(rotation))] == (if (isStart || isEnd) && d % 2 == 1 then 1 else 0)
  {
    var b := Parent(BullwheelFrame(rotation));
    var column := Parent(SprStationColumnSeNw);
    var fence := Draw(FenceMetal(EdgeSe), SchemeTrack, false);
    var near := [b, Child(SprEndCapSe)];
    var far := [fence, b, Child(SprEndCapNw)];
    CapCounts(Child(SprEndCapSe), b, Child(SprEndCapSe), column);
    CapCounts(fence, b, Child(SprEndCapNw), column);
    var leftEnd := (d == 1 && isStart) || (d == 3 && isEnd);
    var rightEnd := !leftEnd && ((d == 3 && isStart) || (d == 1 && isEnd));
    DirectionParity(d);
    assert leftEnd || rightEnd <==> (isStart || isEnd) && d % 2 == 1;
    assert SeNwEnds(d, isStart, isEnd, rotation) == EndOfLine(leftEnd, rightEnd, near, far, column);
    EndOfLineCounts(leftEnd, rightEnd, near, far, column, b);
  }

  /** Nothing before a station's end of line is a column or a bullwheel. */
  lemma StationHeadsHaveNoEndSprite(d: Direction, h: int, isStart: bool, isEnd: bool, fences: set<Edge>, x: PaintEvent)
    requires EndSprite(x)
    ensures x !in NeSwHead(d, h, isStart, isEnd, fences)
    ensures x !in SeNwHead(d, h, isStart, isEnd, fences)
  {
  }

  /** Something absent from a prefix is counted in the rest alone. */
  lemma CountPastHead(head: seq<PaintEvent>, ends: seq<PaintEvent>, x: PaintEvent)
    requires x !in head
    ensures multiset(head + ends)[x] == multiset(ends)[x]
  {
    assert multiset(head + ends) == multiset(head) + multiset(ends);
  }

  /** Column and bullwheel counts of a whole north-east/south-west station piece. */
  lemma StationNeSwCounts(d: Direction, h: int, isStart: bool, isEnd: bool, fences: set<Edge>, rotation: UInt16)
    requires !(isStart && isEnd) && d % 2 == 0
    ensures var draws := StationNeSw(d, h, isStart, isEnd, fences, rotation).draws;
      && multiset(draws)[Parent(SprStationColumnNeSw)] == (if isStart || isEnd then 1 else 2)
      && multiset(draws)[Parent(BullwheelFrame(rotation))] == (if isStart || isEnd then 1 else 0)
  {
    var column := Parent(SprStationColumnNeSw);
    var wheel := Parent(BullwheelFrame(rotation));
    var head := NeSwHead(d, h, isStart, isEnd, fences);
    var ends := NeSwEnds(d, isStart, isEnd, rotation);
    StationHeadsHaveNoEndSprite(d, h, isStart, isEnd, fences, column);
    StationHeadsHaveNoEndSprite(d, h, isStart, isEnd, fences, wheel);
    NeSwEndsCounts(d, isStart, isEnd, rotation);
    CountPastHead(head, ends, column);
    CountPastHead(head, ends, wheel);
  }

  /** Column and bullwheel counts of a whole south-east/north-west station piece. */
  lemma StationSeNwCounts(d: Direction, h: int, isStart: bool, isEnd: bool, fences: set<Edge>, rotation: UInt16)
    requires !(isStart && isEnd) && d % 2 == 1
    ensures var draws := StationSeNw(d, h, isStart, isEnd, fences, rotation).draws;
      && multiset(draws)[Parent(SprStationColumnSeNw)] == (if isStart || isEnd then 1 else 2)
      && multiset(draws)[Parent(BullwheelFrame(rotation))] == (if isStart || isEnd then 1 else 0)
  {
    var column := Parent(SprStationColumnSeNw);
    var wheel := Parent(BullwheelFrame(rotation));
    var head := SeNwHead(d, h, isStart, isEnd, fences);
    var ends := SeNwEnds(d, isStart, isEnd, rotation);
    StationHeadsHaveNoEndSprite(d, h, isStart, isEnd, fences, column);
    StationHeadsHaveNoEndSprite(d, h, isStart, isEnd, fences, wheel);
    SeNwEndsCounts(d, isStart, isEnd, rotation);
    CountPastHead(head, ends, column);
    CountPastHead(head, ends, wheel);
  }

  /** A station piece always keeps at least one of its two columns: it drops
      one exactly when it is the first or last piece, and then it draws the
      bullwheel once instead. */
  lemma StationKeepsAColumn(d: Direction, h: int, c: Context, seen: seq<int>, general: int, accepts: (nat, int, int) -> bool)
    requires ContextValid(c) && |seen| == 9
    ensures var isStart := IsFirstTrack(c.world, c.element, c.pos, c.rideIndex);
      var isEnd := IsLastTrack(c.world, c.element, c.pos, c.rideIndex);
      var draws := PaintSpec(StationPainter, d, h, c, seen, general, accepts).draws;
      var column := Parent(if d % 2 == 1 then SprStationColumnSeNw else SprStationColumnNeSw);
      && multiset(draws)[column] == (if isStart || isEnd then 1 else 2)
      && multiset(draws)[Parent(BullwheelFrame(c.bullwheelRotation))] == (if isStart || isEnd then 1 else 0)
  {
    var isStart := IsFirstTrack(c.world, c.element, c.pos, c.rideIndex);
    var isEnd := IsLastTrack(c.world, c.element, c.pos, c.rideIndex);
    StationEndsExclusive(c.world, c.element, c.pos, c.rideIndex);
    assert PaintSpec(StationPainter, d, h, c, seen, general, accepts) == StationStrokes(d, h, c);
    if d % 2 == 1 {
      assert StationStrokes(d, h, c) == StationSeNw(d, h, isStart, isEnd, c.fences, c.bullwheelRotation);
      StationSeNwCounts(d, h, isStart, isEnd, c.fences, c.bullwheelRotation);
    } else {
      assert StationStrokes(d, h, c) == StationNeSw(d, h, isStart, isEnd, c.fences, c.bullwheelRotation);
      StationNeSwCounts(d, h, isStart, isEnd, c.fences, c.bullwheelRotation);
    }
  }

  /** The station's axis follows the parity of its direction: an even
      direction always pushes one left tunnel; an odd one pushes no left tunnel
      and a right tunnel unless the right-hand column gave way to the bullwheel. */
  lemma StationTunnels(d: Direction, h: int, c: Context)
    requires ContextValid(c)
    ensures var isStart := IsFirstTrack(c.world, c.element, c.pos, c.rideIndex);
      var isEnd := IsLastTrack(c.world, c.element, c.pos, c.rideIndex);
      var st := StationStrokes(d, h, c);
      && (d % 2 == 0 ==> st.left == [Tunnel(h, Tunnel6)] && st.right == [])
      && (d % 2 == 1 ==>
            && st.left == []
            && (st.right == [] <==> (d == 3 && isStart) || (d == 1 && isEnd))
            && (st.right != [] ==> st.right == [Tunnel(h, Tunnel6)]))
  {
    StationEndsExclusive(c.world, c.element, c.pos, c.rideIndex);
  }

  /** Appending two pieces one after another appends their concatenation. */
  lemma AppendTwo(e: seq<PaintEvent>, a: seq<PaintEvent>, b: seq<PaintEvent>)
    ensures e + a + b == e + (a + b)
  {
  }

  /** Appending four pieces one after another appends their concatenation. */
  lemma AppendFour(e: seq<PaintEvent>, a: seq<PaintEvent>, b: seq<PaintEvent>, c: seq<PaintEvent>, d: seq<PaintEvent>)
    ensures e + a + b + c + d == e + (a + b + c + d)
  {
  }

  // ---------------------------------------------------------------------
  // The paint session
  // ---------------------------------------------------------------------

  /** A support segment's height and slope. */
  datatype SupportSegment = SupportSegment(height: int, slope: int)

  /** The part of the paint session the chairlift painters touch. */
  class PaintSession {
    var events: seq<PaintEvent>
    var tunnelsLeft: seq<Tunnel>
    var tunnelsRight: seq<Tunnel>
    const segments: array<SupportSegment>
    var supportHeight: int
    var supportSlope: int

    predicate Valid()
    {
      segments.Length == 9
    }

    constructor ()
      ensures Valid() && fresh(segments)
      ensures events == [] && tunnelsLeft == [] && tunnelsRight == []
      ensures supportHeight == 0 && supportSlope == 0
      ensures forall s :: 0 <= s < 9 ==> segments[s] == SupportSegment(0, 0)
    {
      events := [];
      tunnelsLeft := [];
      tunnelsRight := [];
      segments := new SupportSegment[9](_ => SupportSegment(0, 0));
      supportHeight := 0;
      supportSlope := 0;
    }

    /** The heights of the nine support segments. */
    function Heights(): (r: seq<int>)
      reads segments
      requires Valid()
      ensures |r| == 9
    {
      seq(9, s requires 0 <= s < 9 reads segments => segments[s].height)
    }

    /** Every support segment blocked: height 0xFFFF, slope 0. */
    predicate Cleared()
      reads segments
      requires Valid()
    {
      forall s :: 0 <= s < 9 ==> segments[s] == SupportSegment(0xFFFF, 0)
    }

    /** `paint_util_set_segment_support_height`. */
    method SetSegmentSupportHeight(mask: int, h: int, slope: int)
      requires Valid()
      modifies segments
      ensures forall s :: 0 <= s < 9 ==> segments[s] == if Addressed(mask, s) then SupportSegment(h, slope) else old(segments[s])
    {
      var s := 0;
      while s < 9
        invariant 0 <= s <= 9
        invariant forall q :: 0 <= q < s ==> segments[q] == if Addressed(mask, q) then SupportSegment(h, slope) else old(segments[q])
        invariant forall q :: s <= q < 9 ==> segments[q] == old(segments[q])
      {
        if Addressed(mask, s) {
          segments[s] := SupportSegment(h, slope);
        }
        s := s + 1;
      }
    }

    /** `paint_util_set_general_support_height`: the general support height
      only ever rises; when it does, the slope comes with it. */
    method SetGeneralSupportHeight(h: int, slope: int)
      modifies this
      ensures supportHeight == if old(supportHeight) >= h then old(supportHeight) else h
      ensures supportSlope == if old(supportHeight) >= h then old(supportSlope) else slope
      ensures events == old(events) && tunnelsLeft == old(tunnelsLeft) && tunnelsRight == old(tunnelsRight)
    {
      if supportHeight >= h {
        return;
      }
      supportHeight := h;
      supportSlope := slope;
    }

    /** The closing steps every painter shares: all segments blocked, general
        support height raised to `h + clearance` with slope 0x20. */
    method Finish(h: int, clearance: nat)
      requires Valid()
      modifies this, segments
      ensures Cleared()
      ensures supportHeight == if old(supportHeight) >= h + clearance then old(supportHeight) else h + clearance
      ensures supportSlope == if old(supportHeight) >= h + clearance then old(supportSlope) else 0x20
      ensures events == old(events) && tunnelsLeft == old(tunnelsLeft) && tunnelsRight == old(tunnelsRight)
    {
      SetSegmentSupportHeight(SegmentsAll, 0xFFFF, 0);
      AllSegmentsAddressed();
      SetGeneralSupportHeight(h + clearance, 0x20);
    }

    /** One truss support attempt (`metal_a_supports_paint_setup`), whose
        success is decided by `accepts` from the segment and its current height.
        The helper may write its own support segment and no other. */
    method MetalSupport(s: nat, h: int, accepts: (nat, int, int) -> bool) returns (ok: bool)
      requires Valid() && s < 9
      modifies this, segments
      ensures events == old(events) + [MetalSupports(s, h, old(segments[s].height))]
      ensures ok == accepts(s, h, old(segments[s].height))
      ensures forall q :: 0 <= q < 9 && q != s ==> segments[q] == old(segments[q])
      ensures tunnelsLeft == old(tunnelsLeft) && tunnelsRight == old(tunnelsRight)
      ensures supportHeight == old(supportHeight) && supportSlope == old(supportSlope)
    {
      events := events + [MetalSupports(s, h, segments[s].height)];
      ok := accepts(s, h, segments[s].height);
    }

    /** The first round of `chairlift_paint_util_draw_supports`: a truss
        attempt on every addressed segment at the segment's own height, noting
        whether any succeeded. Segments not addressed are left alone. */
    method TryTruss(mask: int, h: int, accepts: (nat, int, int) -> bool) returns (success: bool)
      requires Valid()
      modifies this, segments
      ensures events == old(events) + SupportCalls(mask, h, old(Heights()), 9)
      ensures success == AnyAccepted(mask, h, old(Heights()), accepts, 9)
      ensures forall q :: 0 <= q < 9 && !Addressed(mask, q) ==> segments[q] == old(segments[q])
      ensures tunnelsLeft == old(tunnelsLeft) && tunnelsRight == old(tunnelsRight)
      ensures supportHeight == old(supportHeight) && supportSlope == old(supportSlope)
    {
      ghost var seen := Heights();
      success := false;
      var s := 0;
      while s < 9
        invariant 0 <= s <= 9
        invariant events == old(events) + SupportCalls(mask, h, seen, s)
        invariant success == AnyAccepted(mask, h, seen, accepts, s)
        invariant forall q :: s <= q < 9 ==> segments[q] == old(segments[q])
        invariant forall q :: 0 <= q < 9 && !Addressed(mask, q) ==> segments[q] == old(segments[q])
        invariant tunnelsLeft == old(tunnelsLeft) && tunnelsRight == old(tunnelsRight)
        invariant supportHeight == old(supportHeight) && supportSlope == old(supportSlope)
      {
        if Addressed(mask, s) {
          assert segments[s].height == seen[s];
          var ok := MetalSupport(s, h, accepts);
          if ok {
            success := true;
          }
        }
        s := s + 1;
      }
    }

    /** The fallback round: each addressed segment is presented at the general
        support height for its call, then given back the height it had before
        the call. Segments not addressed are left alone. */
    method TrussFallback(mask: int, h: int, accepts: (nat, int, int) -> bool)
      requires Valid()
      modifies this, segments
      ensures events == old(events) + SupportCalls(mask, h, Repeat(old(supportHeight), 9), 9)
      ensures forall q :: 0 <= q < 9 ==>
        if Addressed(mask, q) then segments[q].height == old(segments[q].height) else segments[q] == old(segments[q])
      ensures tunnelsLeft == old(tunnelsLeft) && tunnelsRight == old(tunnelsRight)
      ensures supportHeight == old(supportHeight) && supportSlope == old(supportSlope)
    {
      ghost var general := Repeat(supportHeight, 9);
      var s := 0;
      while s < 9
        invariant 0 <= s <= 9
        invariant events == old(events) + SupportCalls(mask, h, general, s)
        invariant forall q :: 0 <= q < 9 ==>
          if q < s && Addressed(mask, q) then segments[q].height == old(segments[q].height) else segments[q] == old(segments[q])
        invariant tunnelsLeft == old(tunnelsLeft) && tunnelsRight == old(tunnelsRight)
        invariant supportHeight == old(supportHeight) && supportSlope == old(supportSlope)
      {
        if Addressed(mask, s) {
          var temp := segments[s].height;
          segments[s] := segments[s].(height := supportHeight);
          var ignored := MetalSupport(s, h, accepts);
          segments[s] := segments[s].(height := temp);
        }
        s := s + 1;
      }
    }

    /** `chairlift_paint_util_draw_supports`: the fallback round runs only when
        no attempt of the first round succeeded. Segments not addressed are
        left alone. */
    method DrawSupports(mask: int, h: int, accepts: (nat, int, int) -> bool)
      requires Valid()
      modifies this, segments
      ensures events == old(events) + SupportEvents(mask, h, old(Heights()), old(supportHeight), accepts)
      ensures forall q :: 0 <= q < 9 && !Addressed(mask, q) ==> segments[q] == old(segments[q])
      ensures tunnelsLeft == old(tunnelsLeft) && tunnelsRight == old(tunnelsRight)
      ensures supportHeight == old(supportHeight) && supportSlope == old(supportSlope)
    {
      ghost var seen := Heights();
      ghost var general := supportHeight;
      var success := TryTruss(mask, h, accepts);
      if success {
        return;
      }
      TrussFallback(mask, h, accepts);
      assert events == old(events) + SupportCalls(mask, h, seen, 9) + SupportCalls(mask, h, Repeat(general, 9), 9);
    }

    /** The closing steps of a painter with supports: the support helper at
        the piece's height, then every segment blocked and the general support
        height raised to `h + clearance`. */
    method SupportsThenFinish(mask: int, h: int, clearance: nat, accepts: (nat, int, int) -> bool)
      requires Valid()
      modifies this, segments
      ensures events == old(events) + SupportEvents(mask, AsUInt16(h), old(Heights()), old(supportHeight), accepts)
      ensures tunnelsLeft == old(tunnelsLeft) && tunnelsRight == old(tunnelsRight)
      ensures Cleared()
      ensures supportHeight == if old(supportHeight) >= h + clearance then old(supportHeight) else h + clearance
      ensures supportSlope == if old(supportHeight) >= h + clearance then old(supportSlope) else 0x20
    {
      DrawSupports(mask, AsUInt16(h), accepts);
      Finish(h, clearance);
    }

    /** What a painter leaves behind: its draws and tunnels appended, every
        support segment blocked, and the general support height raised to at
        least `h + clearance`. */
    twostate predicate PaintedAs(st: Strokes, h: int, clearance: nat)
      reads this, segments
      requires Valid()
    {
      && events == old(events) + st.draws
      && tunnelsLeft == old(tunnelsLeft) + st.left
      && tunnelsRight == old(tunnelsRight) + st.right
      && Cleared()
      && supportHeight == (if old(supportHeight) >= h + clearance then old(supportHeight) else h + clearance)
      && supportSlope == (if old(supportHeight) >= h + clearance then old(supportSlope) else 0x20)
    }

    /** The station's wooden supports, cable and floor. */
    method DrawStationBase(supportType: nat, cable: nat, h: int, isStart: bool, isEnd: bool)
      modifies this
      ensures events == old(events) + StationBase(supportType, cable, h, isStart, isEnd)
      ensures tunnelsLeft == old(tunnelsLeft) && tunnelsRight == old(tunnelsRight)
      ensures supportHeight == old(supportHeight) && supportSlope == old(supportSlope)
    {
      events := events + [WoodenSupports(supportType, h)];
      if !isStart && !isEnd {
        events := events + [Parent(cable)];
      }
      events := events + [Draw(FloorMetal, SchemeSupports, false)];
    }

    /** One side of the station: `track_paint_util_has_fence`, the fence, the covers. */
    method DrawSide(edge: Edge, fences: set<Edge>, fenceAsChild: bool, d: Direction, h: int)
      modifies this
      ensures events == old(events) + SideEvents(edge, edge in fences, fenceAsChild, d, h)
      ensures tunnelsLeft == old(tunnelsLeft) && tunnelsRight == old(tunnelsRight)
      ensures supportHeight == old(supportHeight) && supportSlope == old(supportSlope)
    {
      var hasFence := edge in fences;
      if hasFence {
        events := events + [Draw(FenceMetal(edge), SchemeTrack, fenceAsChild)];
      }
      events := events + [StationCovers(edge, hasFence, d, h)];
    }

    /** The north-east/south-west station's part before its end of line. */
    method DrawNeSwHead(d: Direction, h: int, isStart: bool, isEnd: bool, fences: set<Edge>)
      modifies this
      ensures events == old(events) + NeSwHead(d, h, isStart, isEnd, fences)
      ensures tunnelsLeft == old(tunnelsLeft) && tunnelsRight == old(tunnelsRight)
      ensures supportHeight == old(supportHeight) && supportSlope == old(supportSlope)
    {
      ghost var base := StationBase(0, if d == 0 then SprStationCableNeSw0 else SprStationCableNeSw2, h, isStart, isEnd);
      ghost var nw := SideEvents(EdgeNw, EdgeNw in fences, true, d, h);
      ghost var ne: seq<PaintEvent> := if (d == 2 && isStart) || (d == 0 && isEnd) then [Draw(FenceMetal(EdgeNe), SchemeTrack, true)] else [];
      ghost var se := SideEvents(EdgeSe, EdgeSe in fences, false, d, h);
      DrawStationBase(0, if d == 0 then SprStationCableNeSw0 else SprStationCableNeSw2, h, isStart, isEnd);
      DrawSide(EdgeNw, fences, true, d, h);
      if (d == 2 && isStart) || (d == 0 && isEnd) {
        events := events + [Draw(FenceMetal(EdgeNe), SchemeTrack, true)];
      } else {
        assert events == events + ne;
      }
      DrawSide(EdgeSe, fences, false, d, h);
      AppendFour(old(events), base, nw, ne, se);
    }

    /** The north-east/south-west station's bullwheel group and columns. */
    method DrawNeSwEnds(d: Direction, isStart: bool, isEnd: bool, rotation: UInt16)
      modifies this
      ensures events == old(events) + NeSwEnds(d, isStart, isEnd, rotation)
      ensures tunnelsLeft == old(tunnelsLeft) && tunnelsRight == old(tunnelsRight)
      ensures supportHeight == old(supportHeight) && supportSlope == old(supportSlope)
    {
      var drawFrontColumn := true;
      var drawBackColumn := true;
      if (d == 0 && isStart) || (d == 2 && isEnd) {
        events := events + [Draw(FenceMetal(EdgeSw), SchemeTrack, false), Parent(BullwheelFrame(rotation)), Child(SprEndCapNe)];
        drawFrontColumn := false;
      } else if (d == 2 && isStart) || (d == 0 && isEnd) {
        events := events + [Parent(BullwheelFrame(rotation)), Child(SprEndCapSw)];
        drawBackColumn := false;
      }
      if drawBackColumn {
        events := events + [Parent(SprStationColumnNeSw)];
      }
      if drawFrontColumn {
        events := events + [Parent(SprStationColumnNeSw)];
      }
    }

    /** `chairlift_paint_station_ne_sw`. */
    method PaintStationNeSw(d: Direction, h: int, c: Context)
      requires Valid() && ContextValid(c)
      modifies this, segments
      ensures PaintedAs(StationNeSw(d, h, IsFirstTrack(c.world, c.element, c.pos, c.rideIndex),
        IsLastTrack(c.world, c.element, c.pos, c.rideIndex), c.fences, c.bullwheelRotation), h, 32)
    {
      var isStart := CheckFirstTrack(c.world, c.element, c.pos, c.rideIndex);
      var isEnd := CheckLastTrack(c.world, c.element, c.pos, c.rideIndex);
      DrawNeSwHead(d, h, isStart, isEnd, c.fences);
      DrawNeSwEnds(d, isStart, isEnd, c.bullwheelRotation);
      tunnelsLeft := tunnelsLeft + [Tunnel(h, Tunnel6)];
      Finish(h, 32);
      AppendTwo(old(events), NeSwHead(d, h, isStart, isEnd, c.fences), NeSwEnds(d, isStart, isEnd, c.bullwheelRotation));
    }

    /** The south-east/north-west station's part before its end of line. */
    method DrawSeNwHead(d: Direction, h: int, isStart: bool, isEnd: bool, fences: set<Edge>)
      modifies this
      ensures events == old(events) + SeNwHead(d, h, isStart, isEnd, fences)
      ensures tunnelsLeft == old(tunnelsLeft) && tunnelsRight == old(tunnelsRight)
      ensures supportHeight == old(supportHeight) && supportSlope == old(supportSlope)
    {
      ghost var base := StationBase(1, if d == 1 then SprStationCableSeNw1 else SprStationCableSeNw3, h, isStart, isEnd);
      ghost var ne := SideEvents(EdgeNe, EdgeNe in fences, true, d, h);
      ghost var nw: seq<PaintEvent> := if (d == 1 && isStart) || (d == 3 && isEnd) then [Draw(FenceMetal(EdgeNw), SchemeTrack, true)] else [];
      ghost var sw := SideEvents(EdgeSw, EdgeSw in fences, false, d, h);
      DrawStationBase(1, if d == 1 then SprStationCableSeNw1 else SprStationCableSeNw3, h, isStart, isEnd);
      DrawSide(EdgeNe, fences, true, d, h);
      if (d == 1 && isStart) || (d == 3 && isEnd) {
        events := events + [Draw(FenceMetal(EdgeNw), SchemeTrack, true)];
      } else {
        assert events == events + nw;
      }
      DrawSide(EdgeSw, fences, false, d, h);
      AppendFour(old(events), base, ne, nw, sw);
    }

    /** The south-east/north-west station's bullwheel group and columns; the
        right tunnel goes with the right-hand column. */
    method DrawSeNwEnds(d: Direction, h: int, isStart: bool, isEnd: bool, rotation: UInt16)
      modifies this
      ensures events == old(events) + SeNwEnds(d, isStart, isEnd, rotation)
      ensures tunnelsLeft == old(tunnelsLeft)
      ensures tunnelsRight == old(tunnelsRight) + SeNwRightTunnel(d, h, isStart, isEnd)
      ensures supportHeight == old(supportHeight) && supportSlope == old(supportSlope)
    {
      var drawRightColumn := true;
      var drawLeftColumn := true;
      if (d == 1 && isStart) || (d == 3 && isEnd) {
        events := events + [Parent(BullwheelFrame(rotation)), Child(SprEndCapSe)];
        drawLeftColumn := false;
      } else if (d == 3 && isStart) || (d == 1 && isEnd) {
        events := events + [Draw(FenceMetal(EdgeSe), SchemeTrack, false), Parent(BullwheelFrame(rotation)), Child(SprEndCapNw)];
        drawRightColumn := false;
      }
      if drawLeftColumn {
        events := events + [Parent(SprStationColumnSeNw)];
      }
      if drawRightColumn {
        events := events + [Parent(SprStationColumnSeNw)];
        tunnelsRight := tunnelsRight + [Tunnel(h, Tunnel6)];
      }
    }

    /** `chairlift_paint_station_se_nw`. */
    method PaintStationSeNw(d: Direction, h: int, c: Context)
      requires Valid() && ContextValid(c)
      modifies this, segments
      ensures PaintedAs(StationSeNw(d, h, IsFirstTrack(c.world, c.element, c.pos, c.rideIndex),
        IsLastTrack(c.world, c.element, c.pos, c.rideIndex), c.fences, c.bullwheelRotation), h, 32)
    {
      var isStart := CheckFirstTrack(c.world, c.element, c.pos, c.rideIndex);
      var isEnd := CheckLastTrack(c.world, c.element, c.pos, c.rideIndex);
      DrawSeNwHead(d, h, isStart, isEnd, c.fences);
      DrawSeNwEnds(d, h, isStart, isEnd, c.bullwheelRotation);
      Finish(h, 32);
      AppendTwo(old(events), SeNwHead(d, h, isStart, isEnd, c.fences), SeNwEnds(d, isStart, isEnd, c.bullwheelRotation));
    }

    /** `chairlift_paint_station`: the piece's axis picks the painter. */
    method PaintStation(d: Direction, h: int, c: Context)
      requires Valid() && ContextValid(c)
      modifies this, segments
      ensures PaintedAs(StationStrokes(d, h, c), h, 32)
    {
      if d % 2 == 1 {
        PaintStationSeNw(d, h, c);
      } else {
        PaintStationNeSw(d, h, c);
      }
    }

    /** `chairlift_paint_flat`. */
    method PaintFlat(d: Direction, h: int)
      requires Valid()
      modifies this, segments
      ensures PaintedAs(FlatStrokes(d, h), h, 32)
    {
      if d % 2 == 1 {
        events := events + [Parent(SprCableFlatSeNw)];
        tunnelsRight := tunnelsRight + [Tunnel(h, Tunnel6)];
      } else {
        events := events + [Parent(SprCableFlatSwNe)];
        tunnelsLeft := tunnelsLeft + [Tunnel(h, Tunnel6)];
      }
      Finish(h, 32);
    }

    /** `chairlift_paint_25_deg_up`. */
    method PaintUp25(d: Direction, h: int)
      requires Valid()
      modifies this, segments
      ensures PaintedAs(Up25Strokes(d, h), h, 56)
    {
      events := events + [Parent(SprCableUp + d)];
      if d == 0 {
        tunnelsLeft := tunnelsLeft + [Tunnel(h - 8, Tunnel7)];
      } else if d == 1 {
        tunnelsRight := tunnelsRight + [Tunnel(h + 8, Tunnel8)];
      } else if d == 2 {
        tunnelsLeft := tunnelsLeft + [Tunnel(h + 8, Tunnel8)];
      } else {
        tunnelsRight := tunnelsRight + [Tunnel(h - 8, Tunnel7)];
      }
      Finish(h, 56);
    }

    /** The sprites and tunnels of `chairlift_paint_flat_to_25_deg_up`, by direction. */
    method DrawFlatToUp25Sprites(d: Direction, h: int)
      modifies this
      ensures events == old(events) + FlatToUp25Strokes(d, h).draws
      ensures tunnelsLeft == old(tunnelsLeft) + FlatToUp25Strokes(d, h).left && tunnelsRight == old(tunnelsRight) + FlatToUp25Strokes(d, h).right
      ensures supportHeight == old(supportHeight) && supportSlope == old(supportSlope)
    {
      events := events + [Parent(SprFlatToUpCable + d), SupportSprite(SprFlatToUpSupport + d)];
      if d == 0 {
        tunnelsLeft := tunnelsLeft + [Tunnel(h, Tunnel6)];
      } else if d == 1 {
        tunnelsRight := tunnelsRight + [Tunnel(h, Tunnel8)];
      } else if d == 2 {
        tunnelsLeft := tunnelsLeft + [Tunnel(h, Tunnel8)];
      } else {
        tunnelsRight := tunnelsRight + [Tunnel(h, Tunnel6)];
      }
    }

    /** `chairlift_paint_flat_to_25_deg_up`. */
    method PaintFlatToUp25(d: Direction, h: int, accepts: (nat, int, int) -> bool)
      requires Valid()
      modifies this, segments
      ensures PaintedAs(WithSupports(FlatToUp25Strokes(d, h), SupportEvents(SegmentC4, AsUInt16(h), old(Heights()), old(supportHeight), accepts)), h, 48)
    {
      DrawFlatToUp25Sprites(d, h);
      SupportsThenFinish(SegmentC4, h, 48, accepts);
      AppendTwo(old(events), FlatToUp25Strokes(d, h).draws, SupportEvents(SegmentC4, AsUInt16(h), old(Heights()), old(supportHeight), accepts));
    }

    /** The sprites and tunnels of `chairlift_paint_25_deg_up_to_flat`, by direction. */
    method DrawUp25ToFlatSprites(d: Direction, h: int)
      modifies this
      ensures events == old(events) + Up25ToFlatStrokes(d, h).draws
      ensures tunnelsLeft == old(tunnelsLeft) + Up25ToFlatStrokes(d, h).left && tunnelsRight == old(tunnelsRight) + Up25ToFlatStrokes(d, h).right
      ensures supportHeight == old(supportHeight) && supportSlope == old(supportSlope)
    {
      events := events + [Parent(SprUpToFlatCable + d), SupportSprite(SprUpToFlatSupport + d)];
      if d == 0 {
        tunnelsLeft := tunnelsLeft + [Tunnel(h - 8, Tunnel6)];
      } else if d == 1 {
        tunnelsRight := tunnelsRight + [Tunnel(h + 8, Tunnel14)];
      } else if d == 2 {
        tunnelsLeft := tunnelsLeft + [Tunnel(h + 8, Tunnel14)];
      } else {
        tunnelsRight := tunnelsRight + [Tunnel(h - 8, Tunnel6)];
      }
    }

    /** `chairlift_paint_25_deg_up_to_flat`. */
    method PaintUp25ToFlat(d: Direction, h: int, accepts: (nat, int, int) -> bool)
      requires Valid()
      modifies this, segments
      ensures PaintedAs(WithSupports(Up25ToFlatStrokes(d, h), SupportEvents(SegmentC4, AsUInt16(h), old(Heights()), old(supportHeight), accepts)), h, 40)
    {
      DrawUp25ToFlatSprites(d, h);
      SupportsThenFinish(SegmentC4, h, 40, accepts);
      AppendTwo(old(events), Up25ToFlatStrokes(d, h).draws, SupportEvents(SegmentC4, AsUInt16(h), old(Heights()), old(supportHeight), accepts));
    }

    /** The sprites and tunnels of `chairlift_paint_left_quarter_turn_1_tile`, by direction. */
    method DrawLeftTurnSprites(d: Direction, h: int)
      modifies this
      ensures events == old(events) + LeftTurnStrokes(d, h).draws
      ensures tunnelsLeft == old(tunnelsLeft) + LeftTurnStrokes(d, h).left && tunnelsRight == old(tunnelsRight) + LeftTurnStrokes(d, h).right
      ensures supportHeight == old(supportHeight) && supportSlope == old(supportSlope)
    {
      events := events + [Parent(SprCorner + d), SupportSprite(SprCornerSupportA + d), SupportSprite(SprCornerSupportB + d)];
      if d == 0 {
        tunnelsLeft := tunnelsLeft + [Tunnel(h, Tunnel6)];
      } else if d == 1 {
      } else if d == 2 {
        tunnelsRight := tunnelsRight + [Tunnel(h, Tunnel6)];
      } else {
        tunnelsLeft := tunnelsLeft + [Tunnel(h, Tunnel6)];
        tunnelsRight := tunnelsRight + [Tunnel(h, Tunnel6)];
      }
    }

    /** `chairlift_paint_left_quarter_turn_1_tile`. */
    method PaintLeftQuarterTurn(d: Direction, h: int, accepts: (nat, int, int) -> bool)
      requires Valid()
      modifies this, segments
      ensures PaintedAs(WithSupports(LeftTurnStrokes(d, h),
        SupportEvents(RotateSegments(SegmentC8 + SegmentD0, d), AsUInt16(h), old(Heights()), old(supportHeight), accepts)), h, 32)
    {
      DrawLeftTurnSprites(d, h);
      SupportsThenFinish(RotateSegments(SegmentC8 + SegmentD0, d), h, 32, accepts);
      AppendTwo(old(events), LeftTurnStrokes(d, h).draws, SupportEvents(RotateSegments(SegmentC8 + SegmentD0, d), AsUInt16(h), old(Heights()), old(supportHeight), accepts));
    }

    /** `chairlift_paint_25_deg_down`: the uphill slope turned around. */
    method PaintDown25(d: Direction, h: int)
      requires Valid()
      modifies this, segments
      ensures PaintedAs(Up25Strokes((d + 2) % 4, h), h, 56)
    {
      PaintUp25((d + 2) % 4, h);
    }

    /** `chairlift_paint_flat_to_25_deg_down`: up-to-flat turned around. */
    method PaintFlatToDown25(d: Direction, h: int, accepts: (nat, int, int) -> bool)
      requires Valid()
      modifies this, segments
      ensures PaintedAs(WithSupports(Up25ToFlatStrokes((d + 2) % 4, h), SupportEvents(SegmentC4, AsUInt16(h), old(Heights()), old(supportHeight), accepts)), h, 40)
    {
      PaintUp25ToFlat((d + 2) % 4, h, accepts);
    }

    /** `chairlift_paint_25_deg_down_to_flat`: flat-to-up turned around. */
    method PaintDown25ToFlat(d: Direction, h: int, accepts: (nat, int, int) -> bool)
      requires Valid()
      modifies this, segments
      ensures PaintedAs(WithSupports(FlatToUp25Strokes((d + 2) % 4, h), SupportEvents(SegmentC4, AsUInt16(h), old(Heights()), old(supportHeight), accepts)), h, 48)
    {
      PaintFlatToUp25((d + 2) % 4, h, accepts);
    }

    /** `chairlift_paint_right_quarter_turn_1_tile`: the left turn rotated by three quarters. */
    method PaintRightQuarterTurn(d: Direction, h: int, accepts: (nat, int, int) -> bool)
      requires Valid()
      modifies this, segments
      ensures PaintedAs(WithSupports(LeftTurnStrokes((d + 3) % 4, h),
        SupportEvents(RotateSegments(SegmentC8 + SegmentD0, (d + 3) % 4), AsUInt16(h), old(Heights()), old(supportHeight), accepts)), h, 32)
    {
      PaintLeftQuarterTurn((d + 3) % 4, h, accepts);
    }

    /** Runs the painter `get_track_paint_function_chairlift` chose for the
        piece: it paints what `PaintSpec` says and leaves the general support
        height at least at the painter's clearance. */
    method Paint(p: Painter, d: Direction, h: int, c: Context, accepts: (nat, int, int) -> bool)
      requires Valid() && ContextValid(c)
      modifies this, segments
      ensures PaintedAs(PaintSpec(p, d, h, c, old(Heights()), old(supportHeight), accepts), h, Clearance(p))
    {
      ghost var seen, general := Heights(), supportHeight;
      match p
        case StationPainter =>
          assert PaintSpec(p, d, h, c, seen, general, accepts) == StationStrokes(d, h, c);
          PaintStation(d, h, c);
        case FlatPainter =>
          assert PaintSpec(p, d, h, c, seen, general, accepts) == FlatStrokes(d, h);
          PaintFlat(d, h);
        case Up25Painter =>
          assert PaintSpec(p, d, h, c, seen, general, accepts) == Up25Strokes(d, h);
          PaintUp25(d, h);
        case FlatToUp25Painter =>
          assert PaintSpec(p, d, h, c, seen, general, accepts)
            == WithSupports(FlatToUp25Strokes(d, h), SupportEvents(SegmentC4, AsUInt16(h), seen, general, accepts));
          PaintFlatToUp25(d, h, accepts);
        case Up25ToFlatPainter =>
          assert PaintSpec(p, d, h, c, seen, general, accepts)
            == WithSupports(Up25ToFlatStrokes(d, h), SupportEvents(SegmentC4, AsUInt16(h), seen, general, accepts));
          PaintUp25ToFlat(d, h, accepts);
        case LeftQuarterTurnPainter =>
          assert PaintSpec(p, d, h, c, seen, general, accepts)
            == WithSupports(LeftTurnStrokes(d, h), SupportEvents(RotateSegments(SegmentC8 + SegmentD0, d), AsUInt16(h), seen, general, accepts));
          PaintLeftQuarterTurn(d, h, accepts);
        case Down25Painter =>
          assert PaintSpec(p, d, h, c, seen, general, accepts) == Up25Strokes((d + 2) % 4, h);
          assert Clearance(p) == 56;
          PaintDown25(d, h);
        case FlatToDown25Painter =>
          assert PaintSpec(p, d, h, c, seen, general, accepts)
            == WithSupports(Up25ToFlatStrokes((d + 2) % 4, h), SupportEvents(SegmentC4, AsUInt16(h), seen, general, accepts));
          assert Clearance(p) == 40;
          PaintFlatToDown25(d, h, accepts);
        case Down25ToFlatPainter =>
          assert PaintSpec(p, d, h, c, seen, general, accepts)
            == WithSupports(FlatToUp25Strokes((d + 2) % 4, h), SupportEvents(SegmentC4, AsUInt16(h), seen, general, accepts));
          assert Clearance(p) == 48;
          PaintDown25ToFlat(d, h, accepts);
        case RightQuarterTurnPainter =>
          assert PaintSpec(p, d, h, c, seen, general, accepts)
            == WithSupports(LeftTurnStrokes((d + 3) % 4, h),
                 SupportEvents(RotateSegments(SegmentC8 + SegmentD0, (d + 3) % 4), AsUInt16(h), seen, general, accepts));
          assert Clearance(p) == 32;
          PaintRightQuarterTurn(d, h, accepts);
    }
  }
}
