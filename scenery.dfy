/** Scenery: the loaded-object lookup tables, the scenery id numbering, the
    wall door-sound field, and the per-tick ageing of small scenery (plants age
    until watered by rain, unless something above shelters them). */
module Scenery {
  import opened Base
  import opened TileGrid

  // ---------------------------------------------------------------------
  // Loaded-object tables
  // ---------------------------------------------------------------------

  /** Object type numbers (object.h). */
  const ObjectTypeSmallScenery := 1
  const ObjectTypeLargeScenery := 2
  const ObjectTypeWalls := 3
  const ObjectTypeBanners := 4
  const ObjectTypePathBits := 6
  const ObjectTypeSceneryGroup := 7

  /** Capacities of the loaded-object arrays (ObjectList.h). */
  const MaxSmallScenery := 252
  const MaxLargeScenery := 128
  const MaxWalls := 128
  const MaxBanners := 32
  const MaxPathAdditions := 15
  const MaxSceneryGroups := 19

  /** The parts of a small-scenery entry that ageing reads. */
  datatype SmallSceneryEntry = SmallSceneryEntry(canBeWatered: bool, vOffsetCentre: bool)

  /** The parts of a path-addition entry that the tile update reads. */
  datatype PathBitEntry = PathBitEntry(jumpingFountainWater: bool, jumpingFountainSnow: bool)

  /** A wall entry; its second flag byte carries the door sound. */
  datatype WallEntry = WallEntry(flags2: bv8)

  /** Entries whose contents no modelled operation reads, kept distinct by their object identity. */
  datatype LargeSceneryEntry = LargeSceneryEntry(identity: nat)
  datatype BannerEntry = BannerEntry(identity: nat)
  datatype SceneryGroupEntry = SceneryGroupEntry(identity: nat)

  /** One loaded-object array: `count` is the group count the lookup compares
      against, `slots` the array itself (a slot may hold no object). */
  datatype EntryTable<T> = EntryTable(count: nat, slots: seq<Option<T>>)

  /** A table of the given capacity whose group count does not exceed it. */
  predicate Fits<T>(t: EntryTable<T>, capacity: nat)
  {
    |t.slots| == capacity && t.count <= capacity
  }

  /** Every `get_*_entry` lookup: no object at or past the group count,
      otherwise whatever the array slot holds. */
  function Lookup<T>(t: EntryTable<T>, index: int): (r: Option<T>)
    requires 0 <= index && t.count <= |t.slots|
    ensures r.Some? <==> index < t.count && t.slots[index].Some?
    ensures r.Some? ==> r == t.slots[index]
  {
    if index >= t.count then None else t.slots[index]
  }

  /** All loaded scenery objects. */
  datatype Registry = Registry(
    smallScenery: EntryTable<SmallSceneryEntry>,
    largeScenery: EntryTable<LargeSceneryEntry>,
    walls: EntryTable<WallEntry>,
    banners: EntryTable<BannerEntry>,
    pathBits: EntryTable<PathBitEntry>,
    groups: EntryTable<SceneryGroupEntry>)

  predicate RegistryValid(r: Registry)
  {
    && Fits(r.smallScenery, MaxSmallScenery)
    && Fits(r.largeScenery, MaxLargeScenery)
    && Fits(r.walls, MaxWalls)
    && Fits(r.banners, MaxBanners)
    && Fits(r.pathBits, MaxPathAdditions)
    && Fits(r.groups, MaxSceneryGroups)
  }

  /** No lookup ever reads past its array: an index at or beyond a table's
      capacity finds no object, whatever has been loaded. */
  lemma LookupBeyondCapacity(r: Registry, index: int)
    requires RegistryValid(r)
    ensures index >= MaxSmallScenery ==> Lookup(r.smallScenery, index).None?
    ensures index >= MaxLargeScenery ==> Lookup(r.largeScenery, index).None?
    ensures index >= MaxWalls ==> Lookup(r.walls, index).None?
    ensures index >= MaxBanners ==> Lookup(r.banners, index).None?
    ensures index >= MaxPathAdditions ==> Lookup(r.pathBits, index).None?
    ensures index >= MaxSceneryGroups ==> Lookup(r.groups, index).None?
  {
  }

  // ---------------------------------------------------------------------
  // Scenery ids
  // ---------------------------------------------------------------------

  /** First scenery id of each scenery object type (scenery.h). */
  const SmallSceneryIdMin := 0x000
  const PathSceneryIdMin := 0x100
  const WallsIdMin := 0x200
  const LargeSceneryIdMin := 0x300
  const BannersIdMin := 0x400

  /** The object types that have scenery ids. */
  const SceneryObjectTypes: set<int> :=
    {ObjectTypeSmallScenery, ObjectTypePathBits, ObjectTypeWalls, ObjectTypeLargeScenery, ObjectTypeBanners}

  /** How many entries of a scenery object type can be loaded. */
  function Capacity(objectType: int): nat
  {
    if objectType == ObjectTypeSmallScenery then MaxSmallScenery
    else if objectType == ObjectTypePathBits then MaxPathAdditions
    else if objectType == ObjectTypeWalls then MaxWalls
    else if objectType == ObjectTypeLargeScenery then MaxLargeScenery
    else if objectType == ObjectTypeBanners then MaxBanners
    else 0
  }

  /** The scenery id of an entry: the entry index offset by its type's base,
      or -1 for a type that is not scenery. */
  function SceneryIdFromEntryIndex(objectType: Byte, entryIndex: int): (id: int)
    ensures 0 <= entryIndex ==> (id == -1 <==> objectType !in SceneryObjectTypes)
    ensures objectType in SceneryObjectTypes && 0 <= entryIndex < Capacity(objectType) ==> 0 <= id < 0x500
  {
    if objectType == ObjectTypeSmallScenery then entryIndex + SmallSceneryIdMin
    else if objectType == ObjectTypePathBits then entryIndex + PathSceneryIdMin
    else if objectType == ObjectTypeWalls then entryIndex + WallsIdMin
    else if objectType == ObjectTypeLargeScenery then entryIndex + LargeSceneryIdMin
    else if objectType == ObjectTypeBanners then entryIndex + BannersIdMin
    else -1
  }

  /** An entry named by object type and index. */
  datatype SceneryRef = SceneryRef(objectType: Byte, entryIndex: nat)

  /** The reading back of a scenery id: each block of 256 ids belongs to one
      type, and the offset within the block is the entry index. */
  function EntryFromSceneryId(id: int): Option<SceneryRef>
  {
    if id < 0 || id >= 0x500 then None
    else
      var objectType: Byte :=
        if id < PathSceneryIdMin then ObjectTypeSmallScenery
        else if id < WallsIdMin then ObjectTypePathBits
        else if id < LargeSceneryIdMin then ObjectTypeWalls
        else if id < BannersIdMin then ObjectTypeLargeScenery
        else ObjectTypeBanners;
      var index := id % 256;
      if index < Capacity(objectType) then Some(SceneryRef(objectType, index)) else None
  }

  /** Every loadable scenery entry gets an id that reads back to it. */
  lemma SceneryIdRoundTrip(objectType: Byte, entryIndex: nat)
    requires objectType in SceneryObjectTypes && entryIndex < Capacity(objectType)
    ensures EntryFromSceneryId(SceneryIdFromEntryIndex(objectType, entryIndex)) == Some(SceneryRef(objectType, entryIndex))
  {
  }

  /** Every id that reads back to an entry is that entry's id. */
  lemma EntryFromSceneryIdRoundTrip(id: int)
    requires EntryFromSceneryId(id).Some?
    ensures SceneryIdFromEntryIndex(EntryFromSceneryId(id).value.objectType, EntryFromSceneryId(id).value.entryIndex) == id
  {
  }

  /** Distinct loadable entries never share a scenery id. */
  lemma SceneryIdsDistinct(t1: Byte, i1: nat, t2: Byte, i2: nat)
    requires t1 in SceneryObjectTypes && i1 < Capacity(t1)
    requires t2 in SceneryObjectTypes && i2 < Capacity(t2)
    requires (t1, i1) != (t2, i2)
    ensures SceneryIdFromEntryIndex(t1, i1) != SceneryIdFromEntryIndex(t2, i2)
  {
    SceneryIdRoundTrip(t1, i1);
    SceneryIdRoundTrip(t2, i2);
  }

  // ---------------------------------------------------------------------
  // Door sound
  // ---------------------------------------------------------------------

  /** Bits 1-2 of a wall's second flag byte (scenery.h). */
  const DoorSoundMask: bv8 := 0x06
  const DoorSoundShift: bv8 := 1

  /** `wall_entry_get_door_sound`. */
  function DoorSound(w: WallEntry): (sound: int)
    ensures 0 <= sound < 4
  {
    ((w.flags2 & DoorSoundMask) >> DoorSoundShift) as int
  }

  /** The entry with its door-sound field set to `sound`, every other bit kept. */
  function WithDoorSound(w: WallEntry, sound: int): WallEntry
    requires 0 <= sound < 4
  {
    WallEntry((w.flags2 & !DoorSoundMask) | ((sound as bv8) << DoorSoundShift))
  }

  /** Reading the field back gives the sound that was stored. */
  lemma DoorSoundRoundTrip(w: WallEntry, sound: int)
    requires 0 <= sound < 4
    ensures DoorSound(WithDoorSound(w, sound)) == sound
  {
    var b := sound as bv8;
    assert b == 0 || b == 1 || b == 2 || b == 3;
  }

  /** Storing the sound an entry already has changes nothing: the field is
      exactly the two masked bits. */
  lemma DoorSoundIsTheWholeField(w: WallEntry)
    ensures WithDoorSound(w, DoorSound(w)) == w
  {
    var f := w.flags2;
    assert ((f & DoorSoundMask) >> DoorSoundShift) << DoorSoundShift == f & DoorSoundMask;
    assert (f & !DoorSoundMask) | (f & DoorSoundMask) == f;
  }

  // ---------------------------------------------------------------------
  // Ageing
  // ---------------------------------------------------------------------

  /** The small-scenery "animated" bit (0x10), which the age increase tests
      against the element's own flags byte. */
  const SmallSceneryFlagAnimated := 0x10

  /** Weather values from rain upwards water plants (Climate.h). */
  const WeatherRain := 3

  /** `scenery_increase_age`: frozen while animated, otherwise one step up,
      saturating at 255. */
  function IncreasedAge(e: TileElement): TileElement
    requires e.data.SmallScenery?
  {
    if HasBit(e.flags, SmallSceneryFlagAnimated) || e.data.age >= 255 then e
    else e.(data := e.data.(age := e.data.age + 1))
  }

  /** `n` successive age increases. */
  function AgedTimes(e: TileElement, n: nat): (r: TileElement)
    requires e.data.SmallScenery?
    ensures r.data.SmallScenery? && r.flags == e.flags
  {
    if n == 0 then e else IncreasedAge(AgedTimes(e, n - 1))
  }

  /** Ageing never wraps: after `n` increases a plant's age is its old age plus
      `n`, capped at 255, and an animated element keeps its age. */
  lemma {:induction false} AgeSaturates(e: TileElement, n: nat)
    requires e.data.SmallScenery?
    ensures AgedTimes(e, n).data.entryIndex == e.data.entryIndex
    ensures HasBit(e.flags, SmallSceneryFlagAnimated) ==> AgedTimes(e, n) == e
    ensures !HasBit(e.flags, SmallSceneryFlagAnimated) ==>
      AgedTimes(e, n).data.age == if e.data.age + n < 255 then e.data.age + n else 255
  {
    if n > 0 {
      AgeSaturates(e, n - 1);
    }
  }

  /** The bit the age increase tests is the element's ghost bit, so a ghost
      plant never ages, and a plant that does age keeps every flag. */
  lemma GhostsNeverAge(e: TileElement)
    requires e.data.SmallScenery?
    ensures IsGhost(e) ==> IncreasedAge(e) == e
    ensures IncreasedAge(e).flags == e.flags && IncreasedAge(e).data.entryIndex == e.data.entryIndex
    ensures IncreasedAge(e) != e <==> !IsGhost(e) && e.data.age < 255
  {
  }

  /** What the scan over the elements above a plant concludes. `Undefined`
      covers the two cases where the source reads memory it does not own: the
      scan running past the last element, and a small-scenery element above
      whose entry is not loaded. */
  datatype Shelter = Sheltered | Exposed | Undefined

  /** The scan of `scenery_update_age`, standing on element `m` (initially the
      plant): it stops, exposed, at the first element whose flags have any of
      the low three bits set; otherwise it moves up one element, skips ghosts,
      and stops, sheltered, on large scenery, an entrance, a path, or small
      scenery whose entry is vertically centred. */
  function ShelterScan(s: seq<TileElement>, m: nat, small: EntryTable<SmallSceneryEntry>): Shelter
    requires m < |s| && small.count <= |small.slots|
    decreases |s| - m
  {
    if s[m].flags % 8 != 0 then Exposed
    else if m + 1 == |s| then Undefined
    else
      var above := s[m + 1];
      if IsGhost(above) then ShelterScan(s, m + 1, small)
      else match above.data
        case LargeScenery => Sheltered
        case Entrance => Sheltered
        case Path(_, _) => Sheltered
        case SmallScenery(entryIndex, _) =>
          var entry := Lookup(small, entryIndex);
          if entry.None? then Undefined
          else if entry.value.vOffsetCentre then Sheltered
          else ShelterScan(s, m + 1, small)
        case _ => ShelterScan(s, m + 1, small)
  }

  /** An element that keeps the rain off whatever lies below it. */
  predicate Blocker(e: TileElement, small: EntryTable<SmallSceneryEntry>)
    requires small.count <= |small.slots|
  {
    && !IsGhost(e)
    && (|| e.data.LargeScenery? || e.data.Entrance? || e.data.Path?
        || (e.data.SmallScenery? && Lookup(small, e.data.entryIndex).Some?
            && Lookup(small, e.data.entryIndex).value.vOffsetCentre))
  }

  /** A non-ghost small-scenery element whose entry is not loaded. */
  predicate Unloaded(e: TileElement, small: EntryTable<SmallSceneryEntry>)
    requires small.count <= |small.slots|
  {
    !IsGhost(e) && e.data.SmallScenery? && Lookup(small, e.data.entryIndex).None?
  }

  /** The scan gets past every element in `[j, m)`: their low flag bits are
      clear and none between the plant and `m` has an unloaded entry. */
  predicate ScanPasses(s: seq<TileElement>, j: nat, m: nat, small: EntryTable<SmallSceneryEntry>)
    requires j <= m <= |s| && small.count <= |small.slots|
  {
    && (forall q :: j <= q < m ==> s[q].flags % 8 == 0)
    && (forall q :: j < q < m ==> !Unloaded(s[q], small))
  }

  /** The plant at `j` is sheltered exactly when the scan can reach some
      blocker: which blocker is found first does not matter. */
  lemma {:induction false} ShelteredIff(s: seq<TileElement>, j: nat, small: EntryTable<SmallSceneryEntry>)
    requires j < |s| && small.count <= |small.slots|
    ensures ShelterScan(s, j, small) == Sheltered <==>
      exists m :: j < m < |s| && Blocker(s[m], small) && ScanPasses(s, j, m, small)
    decreases |s| - j
  {
    if s[j].flags % 8 != 0 {
      forall m | j < m < |s|
        ensures !ScanPasses(s, j, m, small)
      {
        assert s[j].flags % 8 != 0;
      }
    } else if j + 1 < |s| {
      var above := s[j + 1];
      if Blocker(above, small) {
        assert ScanPasses(s, j, j + 1, small);
      } else if Unloaded(above, small) {
        assert !Blocker(above, small);
        forall m | j + 1 < m < |s|
          ensures !ScanPasses(s, j, m, small)
        {
          assert Unloaded(s[j + 1], small);
        }
      } else {
        assert ShelterScan(s, j, small) == ShelterScan(s, j + 1, small);
        ShelteredIff(s, j + 1, small);
        if ShelterScan(s, j + 1, small) == Sheltered {
          var m :| j + 1 < m < |s| && Blocker(s[m], small) && ScanPasses(s, j + 1, m, small);
          assert ScanPasses(s, j, m, small);
        }
        if exists m :: j < m < |s| && Blocker(s[m], small) && ScanPasses(s, j, m, small) {
          var m :| j < m < |s| && Blocker(s[m], small) && ScanPasses(s, j, m, small);
          assert m != j + 1;
          assert ScanPasses(s, j + 1, m, small);
        }
      }
    }
  }

  /** The scan from the plant at `j` gets as far as `m` and finds one of the
      low flag bits set there, with no blocker or unloaded entry on the way. */
  predicate ReachesWet(s: seq<TileElement>, j: nat, m: nat, small: EntryTable<SmallSceneryEntry>)
    requires j <= m < |s| && small.count <= |small.slots|
  {
    && s[m].flags % 8 != 0
    && ScanPasses(s, j, m, small)
    && (forall q :: j < q <= m ==> !Blocker(s[q], small) && !Unloaded(s[q], small))
  }

  /** The plant at `j` is exposed exactly when the scan reaches an element with
      one of the low flag bits set before meeting any blocker. */
  lemma {:induction false} ExposedIff(s: seq<TileElement>, j: nat, small: EntryTable<SmallSceneryEntry>)
    requires j < |s| && small.count <= |small.slots|
    ensures ShelterScan(s, j, small) == Exposed <==> exists m :: j <= m < |s| && ReachesWet(s, j, m, small)
    decreases |s| - j
  {
    if s[j].flags % 8 != 0 {
      assert ReachesWet(s, j, j, small);
    } else if j + 1 == |s| {
      assert !ReachesWet(s, j, j, small);
    } else if Blocker(s[j + 1], small) || Unloaded(s[j + 1], small) {
      forall m | j <= m < |s|
        ensures !ReachesWet(s, j, m, small)
      {
        if m > j {
          assert j < j + 1 <= m;
        }
      }
    } else {
      assert ShelterScan(s, j, small) == ShelterScan(s, j + 1, small);
      ExposedIff(s, j + 1, small);
      if ShelterScan(s, j + 1, small) == Exposed {
        var m :| j + 1 <= m < |s| && ReachesWet(s, j + 1, m, small);
        ReachesWetFromBelow(s, j, m, small);
      }
      if exists m :: j <= m < |s| && ReachesWet(s, j, m, small) {
        var m :| j <= m < |s| && ReachesWet(s, j, m, small);
        ReachesWetFromBelow(s, j, m, small);
      }
    }
  }

  /** Past a dry plant whose upper neighbour neither blocks nor is unloaded,
      the scan from the plant reaches what the scan from the neighbour reaches. */
  lemma ReachesWetFromBelow(s: seq<TileElement>, j: nat, m: nat, small: EntryTable<SmallSceneryEntry>)
    requires j < m < |s| && small.count <= |small.slots|
    requires s[j].flags % 8 == 0 && !Blocker(s[j + 1], small) && !Unloaded(s[j + 1], small)
    ensures ReachesWet(s, j, m, small) <==> ReachesWet(s, j + 1, m, small)
  {
    if ReachesWet(s, j + 1, m, small) {
      assert ScanPasses(s, j, m, small);
    }
    if ReachesWet(s, j, m, small) {
      assert ScanPasses(s, j + 1, m, small);
    }
  }

  /** What ageing reads besides the tile: the loaded objects, the cheat that
      stops plants ageing, and the current weather. */
  datatype AgeEnv = AgeEnv(registry: Registry, disablePlantAging: bool, weather: int)

  /** What one call of `scenery_update_age` does to a plant. */
  datatype AgeStep = Unchanged | Aged | Watered | Faulted

  /** The decision of `scenery_update_age` for the small-scenery element at `k`. */
  function AgeStepAt(s: seq<TileElement>, k: nat, env: AgeEnv): AgeStep
    requires k < |s| && s[k].data.SmallScenery? && RegistryValid(env.registry)
  {
    var entry := Lookup(env.registry.smallScenery, s[k].data.entryIndex);
    if entry.None? then Unchanged
    else if env.disablePlantAging && entry.value.canBeWatered then Unchanged
    else if !entry.value.canBeWatered || env.weather < WeatherRain || s[k].data.age < 5 then Aged
    else match ShelterScan(s, k, env.registry.smallScenery)
      case Sheltered => Aged
      case Exposed => Watered
      case Undefined => Faulted
  }

  /** The plant after a decision: aged by one step, watered back to age 0, or as it was. */
  function AgedElement(e: TileElement, step: AgeStep): TileElement
    requires e.data.SmallScenery?
  {
    match step
      case Aged => IncreasedAge(e)
      case Watered => e.(data := e.data.(age := 0))
      case _ => e
  }

  /** Early exits: an unloaded entry, or a waterable plant while the cheat
      disables plant ageing, leaves the plant as it was. */
  lemma EarlyExits(s: seq<TileElement>, k: nat, env: AgeEnv)
    requires k < |s| && s[k].data.SmallScenery? && RegistryValid(env.registry)
    requires var entry := Lookup(env.registry.smallScenery, s[k].data.entryIndex);
      entry.None? || (env.disablePlantAging && entry.value.canBeWatered)
    ensures AgedElement(s[k], AgeStepAt(s, k, env)) == s[k]
  {
  }

  /** A plant that cannot be watered now (entry not waterable, no rain, or age
      below 5) just ages, and what lies above it is never looked at. */
  lemma NotWateredPath(s: seq<TileElement>, t: seq<TileElement>, k: nat, env: AgeEnv)
    requires k < |s| && k < |t| && s[k] == t[k] && s[k].data.SmallScenery? && RegistryValid(env.registry)
    requires var entry := Lookup(env.registry.smallScenery, s[k].data.entryIndex);
      && entry.Some? && !(env.disablePlantAging && entry.value.canBeWatered)
      && (!entry.value.canBeWatered || env.weather < WeatherRain || s[k].data.age < 5)
    ensures AgeStepAt(s, k, env) == Aged && AgeStepAt(t, k, env) == Aged
    ensures AgedElement(s[k], AgeStepAt(s, k, env)) == IncreasedAge(s[k])
  {
  }

  /** A waterable plant in rain, aged 5 or more and reached by no shelter, is
      watered: its age becomes exactly 0 and nothing else about it changes. */
  lemma WateringResetsAge(s: seq<TileElement>, k: nat, env: AgeEnv)
    requires k < |s| && s[k].data.SmallScenery? && RegistryValid(env.registry)
    requires AgeStepAt(s, k, env) == Watered
    ensures var e := AgedElement(s[k], Watered);
      e.data.age == 0 && e.data.entryIndex == s[k].data.entryIndex && e.flags == s[k].flags
    ensures ShelterScan(s, k, env.registry.smallScenery) == Exposed
    ensures !exists m :: k < m < |s| && Blocker(s[m], env.registry.smallScenery) && ScanPasses(s, k, m, env.registry.smallScenery)
  {
    ShelteredIff(s, k, env.registry.smallScenery);
  }

  /** An element with its age forgotten: what the scan and the decisions for
      other elements depend on. */
  function Shape(e: TileElement): TileElement
  {
    if e.data.SmallScenery? then e.(data := e.data.(age := 0)) else e
  }

  /** Two arenas that differ at most in plant ages. */
  predicate SameButAges(s: seq<TileElement>, t: seq<TileElement>)
  {
    |s| == |t| && forall q :: 0 <= q < |s| ==> Shape(s[q]) == Shape(t[q])
  }

  /** The scan does not read ages. */
  lemma {:induction false} ShelterScanIgnoresAges(s: seq<TileElement>, t: seq<TileElement>, m: nat, small: EntryTable<SmallSceneryEntry>)
    requires m < |s| && small.count <= |small.slots| && SameButAges(s, t)
    ensures ShelterScan(s, m, small) == ShelterScan(t, m, small)
    decreases |s| - m
  {
    assert Shape(s[m]) == Shape(t[m]);
    if m + 1 < |s| {
      var a, b := s[m + 1], t[m + 1];
      assert Shape(a) == Shape(b);
      assert a.data.SmallScenery? <==> b.data.SmallScenery?;
      if !a.data.SmallScenery? {
        assert a == b;
      }
      ShelterScanIgnoresAges(s, t, m + 1, small);
    }
  }

  /** The decision for a plant depends on its own age but on no other element's age. */
  lemma AgeStepIgnoresOtherAges(s: seq<TileElement>, t: seq<TileElement>, k: nat, env: AgeEnv)
    requires k < |s| && SameButAges(s, t) && s[k] == t[k] && s[k].data.SmallScenery? && RegistryValid(env.registry)
    ensures AgeStepAt(s, k, env) == AgeStepAt(t, k, env)
  {
    ShelterScanIgnoresAges(s, t, k, env.registry.smallScenery);
  }

  /** `scenery_increase_age` on the element at `k` of the arena. */
  method IncreaseAge(tile: array<TileElement>, k: nat)
    requires k < tile.Length && tile[k].data.SmallScenery?
    modifies tile
    ensures tile[..] == old(tile[..])[k := IncreasedAge(old(tile[k]))]
  {
    var e := tile[k];
    if HasBit(e.flags, SmallSceneryFlagAnimated) {
      return;
    }
    if e.data.age < 255 {
      tile[k] := e.(data := e.data.(age := e.data.age + 1));
    }
  }

  /** The scan over the elements above the plant at `k`, walking the arena. */
  method FindShelter(tile: array<TileElement>, k: nat, small: EntryTable<SmallSceneryEntry>) returns (r: Shelter)
    requires k < tile.Length && small.count <= |small.slots|
    ensures r == ShelterScan(tile[..], k, small)
  {
    var m := k;
    while tile[m].flags % 8 == 0
      invariant k <= m < tile.Length
      invariant ShelterScan(tile[..], m, small) == ShelterScan(tile[..], k, small)
      decreases tile.Length - m
    {
      if m + 1 == tile.Length {
        return Undefined;
      }
      m := m + 1;
      var above := tile[m];
      if IsGhost(above) {
        continue;
      }
      match above.data {
        case LargeScenery => return Sheltered;
        case Entrance => return Sheltered;
        case Path(_, _) => return Sheltered;
        case SmallScenery(entryIndex, _) =>
          var entry := Lookup(small, entryIndex);
          if entry.None? {
            return Undefined;
          }
          if entry.value.vOffsetCentre {
            return Sheltered;
          }
        case _ =>
      }
    }
    return Exposed;
  }

  /** `scenery_update_age` on the plant at `k`. The source dereferences a null
      entry or runs past the arena in the `Faulted` case, so callers must rule it out. */
  method UpdateAge(tile: array<TileElement>, k: nat, env: AgeEnv)
    requires k < tile.Length && tile[k].data.SmallScenery? && RegistryValid(env.registry)
    requires AgeStepAt(tile[..], k, env) != Faulted
    modifies tile
    ensures tile[..] == old(tile[..])[k := AgedElement(old(tile[k]), AgeStepAt(old(tile[..]), k, env))]
  {
    var entry := Lookup(env.registry.smallScenery, tile[k].data.entryIndex);
    if entry.None? {
      return;
    }
    if env.disablePlantAging && entry.value.canBeWatered {
      return;
    }
    if !entry.value.canBeWatered || env.weather < WeatherRain || tile[k].data.age < 5 {
      IncreaseAge(tile, k);
      return;
    }
    var shelter := FindShelter(tile, k, env.registry.smallScenery);
    if shelter == Sheltered {
      IncreaseAge(tile, k);
      return;
    }
    tile[k] := tile[k].(data := tile[k].data.(age := 0));
  }

  // ---------------------------------------------------------------------
  // Tile update
  // ---------------------------------------------------------------------

  datatype FountainKind = JumpingWater | JumpingSnow

  /** A jumping fountain started at pixel position (x, y) by the path element at `element`. */
  datatype FountainStart = FountainStart(kind: FountainKind, x: int, y: int, element: nat)

  /** Whether the tile walk acts on element `q`: ghosts are skipped only in a network game. */
  predicate Visited(s: seq<TileElement>, q: nat, networked: bool)
    requires q < |s|
  {
    !(networked && IsGhost(s[q]))
  }

  /** The fountain the walk starts at element `q`, if any: a visited path with
      a non-ghost addition whose entry is loaded and has a fountain flag, water first. */
  function FountainAt(s: seq<TileElement>, q: nat, x: int, y: int, env: AgeEnv, networked: bool): seq<FountainStart>
    requires q < |s| && RegistryValid(env.registry)
  {
    if !Visited(s, q, networked) then []
    else match s[q].data
      case Path(slot, additionIsGhost) =>
        if slot == 0 || additionIsGhost then []
        else
          var entry := Lookup(env.registry.pathBits, slot - 1);
          if entry.None? then []
          else if entry.value.jumpingFountainWater then [FountainStart(JumpingWater, x, y, q)]
          else if entry.value.jumpingFountainSnow then [FountainStart(JumpingSnow, x, y, q)]
          else []
      case _ => []
  }

  /** The fountains started by elements `[lo, hi)`, in arena order. */
  function FountainsBetween(s: seq<TileElement>, lo: nat, hi: nat, x: int, y: int, env: AgeEnv, networked: bool): seq<FountainStart>
    requires lo <= hi <= |s| && RegistryValid(env.registry)
    decreases hi - lo
  {
    if lo == hi then [] else FountainsBetween(s, lo, hi - 1, x, y, env, networked) + FountainAt(s, hi - 1, x, y, env, networked)
  }

  /** Every fountain the walk of `[lo, hi)` starts comes from a path element in
      that range, and they come in arena order, at most one per element. */
  lemma {:induction false} FountainsFromPaths(s: seq<TileElement>, lo: nat, hi: nat, x: int, y: int, env: AgeEnv, networked: bool)
    requires lo <= hi <= |s| && RegistryValid(env.registry)
    ensures forall i :: 0 <= i < |FountainsBetween(s, lo, hi, x, y, env, networked)| ==>
      var f := FountainsBetween(s, lo, hi, x, y, env, networked)[i];
      lo <= f.element < hi && s[f.element].data.Path?
    ensures forall i, j :: 0 <= i < j < |FountainsBetween(s, lo, hi, x, y, env, networked)| ==>
      FountainsBetween(s, lo, hi, x, y, env, networked)[i].element < FountainsBetween(s, lo, hi, x, y, env, networked)[j].element
    decreases hi - lo
  {
    if lo < hi {
      FountainsFromPaths(s, lo, hi - 1, x, y, env, networked);
      var prefix := FountainsBetween(s, lo, hi - 1, x, y, env, networked);
      var here := FountainAt(s, hi - 1, x, y, env, networked);
      assert FountainsBetween(s, lo, hi, x, y, env, networked) == prefix + here;
      assert forall k :: 0 <= k < |here| ==> here[k].element == hi - 1 && s[hi - 1].data.Path?;
    }
  }

  /** Element `q` after the walk has passed it: a visited plant has had its age updated. */
  function Visit(s: seq<TileElement>, q: nat, env: AgeEnv, networked: bool): TileElement
    requires q < |s| && RegistryValid(env.registry)
  {
    if Visited(s, q, networked) && s[q].data.SmallScenery? then AgedElement(s[q], AgeStepAt(s, q, env)) else s[q]
  }

  /** The arena after the walk has passed elements `[first, i)`. */
  function Walked(s: seq<TileElement>, first: nat, i: nat, env: AgeEnv, networked: bool): (r: seq<TileElement>)
    requires first <= i <= |s| && RegistryValid(env.registry)
    ensures |r| == |s|
    decreases i - first
  {
    if i == first then s else Walked(s, first, i - 1, env, networked)[i - 1 := Visit(s, i - 1, env, networked)]
  }

  /** Element by element, the walk has visited exactly the elements in `[first, i)`. */
  lemma {:induction false} WalkedAt(s: seq<TileElement>, first: nat, i: nat, env: AgeEnv, networked: bool, q: nat)
    requires first <= i <= |s| && q < |s| && RegistryValid(env.registry)
    ensures Walked(s, first, i, env, networked)[q] == if first <= q < i then Visit(s, q, env, networked) else s[q]
    decreases i - first
  {
    if i > first {
      WalkedAt(s, first, i - 1, env, networked, q);
    }
  }

  /** The walk never meets an undefined scan: no visited plant of the tile faults. */
  predicate NoFaults(s: seq<TileElement>, first: nat, last: nat, env: AgeEnv, networked: bool)
    requires last < |s| && RegistryValid(env.registry)
  {
    forall q :: first <= q <= last && Visited(s, q, networked) && s[q].data.SmallScenery? ==> AgeStepAt(s, q, env) != Faulted
  }

  lemma AgedElementShape(e: TileElement, step: AgeStep)
    requires e.data.SmallScenery?
    ensures Shape(AgedElement(e, step)) == Shape(e)
  {
  }

  /** The walk changes plant ages only. */
  lemma WalkedSameButAges(s: seq<TileElement>, first: nat, i: nat, env: AgeEnv, networked: bool)
    requires first <= i <= |s| && RegistryValid(env.registry)
    ensures SameButAges(Walked(s, first, i, env, networked), s)
  {
    var w := Walked(s, first, i, env, networked);
    forall q | 0 <= q < |s|
      ensures Shape(w[q]) == Shape(s[q])
    {
      WalkedAt(s, first, i, env, networked, q);
      if first <= q < i && Visited(s, q, networked) && s[q].data.SmallScenery? {
        AgedElementShape(s[q], AgeStepAt(s, q, env));
      }
    }
  }

  /** The tile walk touches nothing outside the tile, nothing but visited
      plants, and of those nothing but the age. */
  lemma WalkTouchesOnlyPlantAges(s: seq<TileElement>, first: nat, i: nat, env: AgeEnv, networked: bool, q: nat)
    requires first <= i <= |s| && RegistryValid(env.registry) && q < |s|
    requires Walked(s, first, i, env, networked)[q] != s[q]
    ensures first <= q < i && Visited(s, q, networked) && s[q].data.SmallScenery?
    ensures Walked(s, first, i, env, networked)[q].data.SmallScenery?
    ensures Walked(s, first, i, env, networked)[q].data.entryIndex == s[q].data.entryIndex
    ensures Walked(s, first, i, env, networked)[q].flags == s[q].flags
  {
    WalkedAt(s, first, i, env, networked, q);
  }

  /** One pass of the tile walk's loop body on element `i`. */
  method VisitElement(arena: array<TileElement>, i: nat, x: int, y: int, env: AgeEnv, networked: bool)
      returns (started: seq<FountainStart>)
    requires i < arena.Length && RegistryValid(env.registry)
    requires Visited(arena[..], i, networked) && arena[i].data.SmallScenery? ==> AgeStepAt(arena[..], i, env) != Faulted
    modifies arena
    ensures arena[..] == old(arena[..])[i := Visit(old(arena[..]), i, env, networked)]
    ensures started == FountainAt(old(arena[..]), i, x, y, env, networked)
  {
    var e := arena[i];
    started := [];
    if networked && IsGhost(e) {
      assert arena[..] == old(arena[..])[i := e];
      return;
    }
    match e.data {
      case SmallScenery(_, _) =>
        UpdateAge(arena, i, env);
      case Path(slot, additionIsGhost) =>
        assert arena[..] == old(arena[..])[i := e];
        if slot > 0 && !additionIsGhost {
          var entry := Lookup(env.registry.pathBits, slot - 1);
          if entry.Some? {
            if entry.value.jumpingFountainWater {
              started := [FountainStart(JumpingWater, x, y, i)];
            } else if entry.value.jumpingFountainSnow {
              started := [FountainStart(JumpingSnow, x, y, i)];
            }
          }
        }
      case _ =>
        assert arena[..] == old(arena[..])[i := e];
    }
  }

  /** Visiting an element of a partly walked arena is the same as visiting it
      in the original one, as long as that element itself is untouched. */
  lemma VisitAgrees(cur: seq<TileElement>, s: seq<TileElement>, i: nat, x: int, y: int, env: AgeEnv, networked: bool)
    requires i < |s| && SameButAges(cur, s) && cur[i] == s[i] && RegistryValid(env.registry)
    ensures Visit(cur, i, env, networked) == Visit(s, i, env, networked)
    ensures FountainAt(cur, i, x, y, env, networked) == FountainAt(s, i, x, y, env, networked)
    ensures Visited(s, i, networked) && s[i].data.SmallScenery? ==> AgeStepAt(cur, i, env) == AgeStepAt(s, i, env)
  {
    if Visited(s, i, networked) && s[i].data.SmallScenery? {
      AgeStepIgnoresOtherAges(cur, s, i, env);
    }
  }

  /** The walk advanced by one element. */
  lemma WalkedStep(s: seq<TileElement>, first: nat, i: nat, env: AgeEnv, networked: bool)
    requires first <= i < |s| && RegistryValid(env.registry)
    ensures Walked(s, first, i + 1, env, networked) == Walked(s, first, i, env, networked)[i := Visit(s, i, env, networked)]
  {
  }

  /** Before the walk starts the arena is as it was. */
  lemma WalkedNothing(s: seq<TileElement>, first: nat, x: int, y: int, env: AgeEnv, networked: bool)
    requires first <= |s| && RegistryValid(env.registry)
    ensures WalkedTo(s, [], s, first, first, x, y, env, networked)
  {
  }

  /** One more element of the tile walked: that element is still as the arena
      had it, visiting it meets no fault, and the walk extends by its visit. */
  lemma WalkAdvance(s: seq<TileElement>, first: nat, i: nat, last: nat, x: int, y: int, env: AgeEnv, networked: bool)
    requires first <= i <= last < |s| && RegistryValid(env.registry)
    requires NoFaults(s, first, last, env, networked)
    requires LastForTile(s, first) == Some(last)
    ensures Walked(s, first, i, env, networked)[i] == s[i]
    ensures IsLastForTile(s[i]) <==> i == last
    ensures FountainsBetween(s, first, i + 1, x, y, env, networked)
      == FountainsBetween(s, first, i, x, y, env, networked) + FountainAt(s, i, x, y, env, networked)
    ensures Visited(s, i, networked) && s[i].data.SmallScenery? ==> AgeStepAt(Walked(s, first, i, env, networked), i, env) != Faulted
    ensures Walked(s, first, i, env, networked)[i := Visit(Walked(s, first, i, env, networked), i, env, networked)]
      == Walked(s, first, i + 1, env, networked)
    ensures FountainAt(Walked(s, first, i, env, networked), i, x, y, env, networked) == FountainAt(s, i, x, y, env, networked)
  {
    var cur := Walked(s, first, i, env, networked);
    WalkedAt(s, first, i, env, networked, i);
    WalkedSameButAges(s, first, i, env, networked);
    VisitAgrees(cur, s, i, x, y, env, networked);
    WalkedStep(s, first, i, env, networked);
  }

  /** The walk has passed elements `[first, i)`: `cur` is the arena it leaves
      and `fountains` the fountains it has started. */
  predicate WalkedTo(cur: seq<TileElement>, fountains: seq<FountainStart>, s: seq<TileElement>, first: nat, i: nat,
                     x: int, y: int, env: AgeEnv, networked: bool)
    requires first <= i <= |s| && RegistryValid(env.registry)
  {
    cur == Walked(s, first, i, env, networked) && fountains == FountainsBetween(s, first, i, x, y, env, networked)
  }

  /** One iteration of the tile walk: visit element `i`, record the fountain
      it starts, and report whether it closes the tile. */
  method WalkOne(arena: array<TileElement>, ghost s: seq<TileElement>, first: nat, i: nat, ghost last: nat,
                 fountains: seq<FountainStart>, x: int, y: int, env: AgeEnv, networked: bool)
      returns (fountains': seq<FountainStart>, isLast: bool, next: nat)
    requires first <= i <= last < |s| == arena.Length && RegistryValid(env.registry)
    requires NoFaults(s, first, last, env, networked) && LastForTile(s, first) == Some(last)
    requires WalkedTo(arena[..], fountains, s, first, i, x, y, env, networked)
    modifies arena
    ensures next == i + 1 && WalkedTo(arena[..], fountains', s, first, next, x, y, env, networked)
    ensures isLast <==> i == last
  {
    next := i + 1;
    WalkAdvance(s, first, i, last, x, y, env, networked);
    var e := arena[i];
    var started := VisitElement(arena, i, x, y, env, networked);
    fountains' := fountains + started;
    isLast := IsLastForTile(e);
  }

  /** The walk of `scenery_update_tile` over one tile: from its first element
      `first` up to and including `last`, the one flagged last for the tile. */
  method WalkTile(arena: array<TileElement>, ghost s: seq<TileElement>, first: nat, ghost last: nat,
                  x: int, y: int, env: AgeEnv, networked: bool)
      returns (fountains: seq<FountainStart>)
    requires arena[..] == s && first <= last < |s| && RegistryValid(env.registry)
    requires NoFaults(s, first, last, env, networked) && LastForTile(s, first) == Some(last)
    modifies arena
    ensures WalkedTo(arena[..], fountains, s, first, last + 1, x, y, env, networked)
  {
    var i := first;
    fountains := [];
    WalkedNothing(s, first, x, y, env, networked);
    while true
      invariant first <= i <= last
      invariant WalkedTo(arena[..], fountains, s, first, i, x, y, env, networked)
      decreases last - i
    {
      var isLast;
      fountains, isLast, i := WalkOne(arena, s, first, i, last, fountains, x, y, env, networked);
      if isLast {
        return;
      }
    }
  }

  /** `scenery_update_tile` at pixel position (x, y): walk the tile's elements
      up to and including the one flagged last for the tile, updating the age
      of every visited plant and starting the fountain of every visited path
      addition that has one. */
  method UpdateTile(arena: array<TileElement>, firstAt: map<(int, int), nat>, x: int, y: int, env: AgeEnv, networked: bool)
      returns (fountains: seq<FountainStart>)
    requires (x / 32, y / 32) in firstAt && RegistryValid(env.registry)
    requires firstAt[(x / 32, y / 32)] < arena.Length
    requires LastForTile(arena[..], firstAt[(x / 32, y / 32)]).Some?
    requires NoFaults(arena[..], firstAt[(x / 32, y / 32)], LastForTile(arena[..], firstAt[(x / 32, y / 32)]).value, env, networked)
    modifies arena
    ensures var first := firstAt[(x / 32, y / 32)];
      var last := LastForTile(old(arena[..]), first).value;
      && arena[..] == Walked(old(arena[..]), first, last + 1, env, networked)
      && fountains == FountainsBetween(old(arena[..]), first, last + 1, x, y, env, networked)
  {
    var first := firstAt[(x / 32, y / 32)];
    fountains := WalkTile(arena, arena[..], first, LastForTile(arena[..], first).value, x, y, env, networked);
  }
}
