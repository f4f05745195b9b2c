/** The tile grid shared by scenery ageing and track painting: tile elements
    stored contiguously, one run of elements per tile, each run closed by the
    element that carries the last-for-tile flag. */
module TileGrid {
  import opened Base

  /** An unsigned 8-bit field. */
  type Byte = b: int | 0 <= b < 256

  /** One of the four cardinal directions, the low two bits of an element's type byte. */
  type Direction = d: int | 0 <= d < 4

  /** Bits of an element's `flags` byte (map.h). */
  const FlagGhost := 0x10
  const FlagLastForTile := 0x80

  /** Whether the single-bit mask `bit` is set in `flags` (`flags & bit`). */
  predicate HasBit(flags: int, bit: nat)
    requires bit > 0
  {
    (flags / bit) % 2 == 1
  }

  /** Track piece types the chairlift knows how to paint; any other type is `OtherTrack`. */
  datatype TrackElem =
    | Flat
    | EndStation
    | BeginStation
    | MiddleStation
    | Up25
    | FlatToUp25
    | Up25ToFlat
    | Down25
    | FlatToDown25
    | Down25ToFlat
    | LeftQuarterTurn1Tile
    | RightQuarterTurn1Tile
    | OtherTrack(code: int)

  /** The per-type part of a tile element (the source's `properties` union). */
  datatype ElementData =
    | Surface
    | Path(additionSlot: nat, additionIsGhost: bool)   // additionSlot 0: no path addition, else entry index + 1
    | Track(trackType: TrackElem, rideIndex: nat)
    | SmallScenery(entryIndex: Byte, age: Byte)
    | Entrance
    | Wall
    | LargeScenery
    | Banner

  datatype TileElement = TileElement(
    data: ElementData,
    direction: Direction,
    flags: Byte,
    baseHeight: Byte,
    clearanceHeight: Byte)

  predicate IsGhost(e: TileElement) { HasBit(e.flags, FlagGhost) }

  predicate IsLastForTile(e: TileElement) { HasBit(e.flags, FlagLastForTile) }

  /** Index of the element closing the tile whose run starts at `first`, if the
      arena holds one. */
  function LastForTile(s: seq<TileElement>, first: nat): (r: Option<nat>)
    decreases |s| - first
    ensures r.Some? ==> first <= r.value < |s| && IsLastForTile(s[r.value])
    ensures r.Some? ==> forall q :: first <= q < r.value ==> !IsLastForTile(s[q])
    ensures r.None? ==> forall q :: first <= q < |s| ==> !IsLastForTile(s[q])
  {
    if first >= |s| then None
    else if IsLastForTile(s[first]) then Some(first)
    else LastForTile(s, first + 1)
  }

  /** The map: the element arena and, per tile coordinate, the index of the
      tile's first element (`map_get_first_element_at`; a missing key is NULL). */
  datatype World = World(arena: seq<TileElement>, firstAt: map<(int, int), nat>)

  /** Every tile the map knows starts inside the arena and is closed by a
      last-for-tile element. */
  predicate WorldValid(w: World)
  {
    forall t :: t in w.firstAt ==> w.firstAt[t] < |w.arena| && LastForTile(w.arena, w.firstAt[t]).Some?
  }
}
