/** The park award evaluator: seventeen award kinds, each with a deservedness
    check over a snapshot of the park, and the fixed table of award slots that
    `award_update_all` fills, ages and frees. */
module Awards {
  import opened Base

  const AwardCount := 17
  const MaxAwards := 4

  type AwardKind = k: int | 0 <= k < AwardCount

  const MostUntidy: AwardKind := 0
  const MostTidy: AwardKind := 1
  const BestRollercoasters: AwardKind := 2
  const BestValue: AwardKind := 3
  const MostBeautiful: AwardKind := 4
  const WorstValue: AwardKind := 5
  const Safest: AwardKind := 6
  const BestStaff: AwardKind := 7
  const BestFood: AwardKind := 8
  const WorstFood: AwardKind := 9
  const BestRestrooms: AwardKind := 10
  const MostDisappointing: AwardKind := 11
  const BestWaterRides: AwardKind := 12
  const BestCustomDesignedRides: AwardKind := 13
  const MostDazzlingRideColours: AwardKind := 14
  const MostConfusingLayout: AwardKind := 15
  const BestGentleRides: AwardKind := 16

  /** Polarity of each award kind, indexed by kind (`AwardPositiveMap`). */
  const PositiveMap: seq<bool> :=
    [false, true, true, true, true, false, true, true, true, false, true, false, true, true, true, false, true]

  function IsPositive(k: AwardKind): bool
  {
    PositiveMap[k]
  }

  // ---------------------------------------------------------------- snapshot

  /** The thought kinds the award checks look at; every other kind is `OtherThought`. */
  datatype ThoughtKind =
    BadLitter | PathDisgusting | Vandalism | VeryClean | Scenery | Hungry | Bathroom | Lost | CantFind | OtherThought

  /** A guest's most recent thought (`thoughts[0]`); `staleness` is the
      counter `var_2`, and only thoughts with staleness at most 5 are fresh. */
  datatype Thought = Thought(kind: ThoughtKind, staleness: Byte)

  type Byte = b: int | 0 <= b < 256

  datatype PeepType = Guest | Staff(staffType: Byte)

  datatype Peep = Peep(peepType: PeepType, outsideOfPark: bool, thought: Thought)

  datatype RideStatus = Closed | Open | Testing

  datatype RideCategory = Transport | Gentle | Rollercoaster | Thrill | Water | ShopCategory

  /** The loaded ride object a ride refers to. */
  datatype RideEntry = RideEntry(categories: set<RideCategory>, shopItem: nat)

  /** A ride record. `entry` is `get_ride_entry(subtype)` (None for NULL);
      `sellsFood`, `hasTrack` and `isToilets` are the ride type's table flags. */
  datatype Ride = Ride(
    entry: Option<RideEntry>,
    status: RideStatus,
    crashed: bool,
    notCustomDesign: bool,
    sellsFood: bool,
    hasTrack: bool,
    isToilets: bool,
    lastCrashType: nat,
    excitement: nat,
    popularity: Byte,
    mainTrackColour: Byte)

  /** Everything the checks read: the peep and ride tables and the park globals
      (`gNumGuestsInPark`, `gParkFlags`, the entrance fee, `gTotalRideValueForMoney`
      and `gParkRating`). Money is in tenths of a currency unit. */
  datatype Park = Park(
    peeps: seq<Peep>,
    rides: seq<Ride>,
    numGuestsInPark: nat,
    open: bool,
    noMoney: bool,
    freeEntry: bool,
    entranceFee: int,
    totalRideValueForMoney: int,
    rating: int)

  const RideRatingUndefined := 0xFFFF
  const CrashTypeNone := 0
  const DazzlingColours: set<int> := {5, 14, 20, 30}

  // ------------------------------------------------------ guest and ride tests

  predicate IsGuest(p: Peep) { p.peepType.Guest? }

  predicate IsStaff(p: Peep) { p.peepType.Staff? }

  /** A guest counted by the checks: inside the park. */
  predicate InPark(p: Peep) { IsGuest(p) && !p.outsideOfPark }

  /** An in-park guest whose fresh first thought is one of `kinds`. */
  predicate FreshlyThinks(p: Peep, kinds: set<ThoughtKind>)
  {
    InPark(p) && p.thought.staleness <= 5 && p.thought.kind in kinds
  }

  const UntidyThoughts: set<ThoughtKind> := {BadLitter, PathDisgusting, Vandalism}

  predicate ThinksUntidy(p: Peep) { FreshlyThinks(p, UntidyThoughts) }

  /** A ride with a loaded entry, open, not crashed and of category `c`. */
  predicate OpenInCategory(r: Ride, c: RideCategory)
  {
    r.entry.Some? && r.status == Open && !r.crashed && c in r.entry.value.categories
  }

  predicate IsRollercoaster(r: Ride) { OpenInCategory(r, Rollercoaster) }

  predicate IsOpenFoodShop(r: Ride) { r.status == Open && r.sellsFood }

  /** The distinct shop items sold by open food shops with a loaded entry (the `shopTypes` bitmask). */
  function ShopItems(rides: seq<Ride>): set<nat>
  {
    set i | 0 <= i < |rides| && IsOpenFoodShop(rides[i]) && rides[i].entry.Some? :: rides[i].entry.value.shopItem
  }

  /** Staff types present among all peeps (the `staffTypeFlags` bitmask). */
  function StaffTypes(peeps: seq<Peep>): set<int>
  {
    set i | 0 <= i < |peeps| && IsStaff(peeps[i]) :: peeps[i].peepType.staffType
  }

  predicate IsRatedRide(r: Ride) { r.excitement != RideRatingUndefined && r.popularity != 0xFF }

  predicate IsUnpopular(r: Ride) { IsRatedRide(r) && r.popularity <= 6 }

  predicate IsCustomDesignedHit(r: Ride)
  {
    r.hasTrack && !r.notCustomDesign && r.excitement >= 550 && r.status == Open && !r.crashed
  }

  predicate IsColourful(r: Ride) { r.hasTrack && r.mainTrackColour in DazzlingColours }

  // ---------------------------------------------------------- the 17 checks

  predicate MostUntidyDeserved(p: Park, active: set<int>)
  {
    MostBeautiful !in active && BestStaff !in active && MostTidy !in active &&
    Count(p.peeps, ThinksUntidy) > p.numGuestsInPark / 16
  }

  predicate MostTidyDeserved(p: Park, active: set<int>)
  {
    MostUntidy !in active && MostDisappointing !in active &&
    Count(p.peeps, ThinksUntidy) <= 5 &&
    Count(p.peeps, (g: Peep) => FreshlyThinks(g, {VeryClean})) > p.numGuestsInPark / 64
  }

  predicate BestRollercoastersDeserved(p: Park, active: set<int>)
  {
    Count(p.rides, IsRollercoaster) >= 6
  }

  predicate BestValueDeserved(p: Park, active: set<int>)
  {
    WorstValue !in active && MostDisappointing !in active &&
    !p.noMoney && !p.freeEntry &&
    p.totalRideValueForMoney >= 100 &&
    p.entranceFee + 1 < p.totalRideValueForMoney / 2
  }

  predicate MostBeautifulDeserved(p: Park, active: set<int>)
  {
    MostUntidy !in active && MostDisappointing !in active &&
    Count(p.peeps, ThinksUntidy) <= 15 &&
    Count(p.peeps, (g: Peep) => FreshlyThinks(g, {Scenery})) > p.numGuestsInPark / 128
  }

  predicate WorstValueDeserved(p: Park, active: set<int>)
  {
    BestValue !in active && !p.noMoney &&
    p.entranceFee != 0 && p.entranceFee > p.totalRideValueForMoney
  }

  predicate SafestDeserved(p: Park, active: set<int>)
  {
    Count(p.peeps, (g: Peep) => FreshlyThinks(g, {Vandalism})) <= 2 &&
    forall i :: 0 <= i < |p.rides| ==> p.rides[i].lastCrashType == CrashTypeNone
  }

  predicate BestStaffDeserved(p: Park, active: set<int>)
  {
    MostUntidy !in active &&
    StaffTypes(p.peeps) * {0, 1, 2, 3} != {} &&
    Count(p.peeps, IsStaff) >= 20 &&
    Count(p.peeps, IsStaff) >= Count(p.peeps, IsGuest) / 32
  }

  predicate BestFoodDeserved(p: Park, active: set<int>)
  {
    WorstFood !in active &&
    Count(p.rides, IsOpenFoodShop) >= 7 &&
    |ShopItems(p.rides)| >= 4 &&
    Count(p.rides, IsOpenFoodShop) >= p.numGuestsInPark / 128 &&
    Count(p.peeps, (g: Peep) => FreshlyThinks(g, {Hungry})) <= 12
  }

  predicate WorstFoodDeserved(p: Park, active: set<int>)
  {
    BestFood !in active &&
    |ShopItems(p.rides)| <= 2 &&
    Count(p.rides, IsOpenFoodShop) <= p.numGuestsInPark / 256 &&
    Count(p.peeps, (g: Peep) => FreshlyThinks(g, {Hungry})) > 15
  }

  predicate BestRestroomsDeserved(p: Park, active: set<int>)
  {
    var restrooms := Count(p.rides, (r: Ride) => r.isToilets && r.status == Open);
    restrooms >= 4 &&
    restrooms >= p.numGuestsInPark / 128 &&
    Count(p.peeps, (g: Peep) => FreshlyThinks(g, {Bathroom})) <= 16
  }

  predicate MostDisappointingDeserved(p: Park, active: set<int>)
  {
    BestValue !in active && p.rating <= 650 &&
    Count(p.rides, IsUnpopular) >= Count(p.rides, IsRatedRide) / 2
  }

  predicate BestWaterRidesDeserved(p: Park, active: set<int>)
  {
    Count(p.rides, (r: Ride) => OpenInCategory(r, Water)) >= 6
  }

  predicate BestCustomDesignedRidesDeserved(p: Park, active: set<int>)
  {
    MostDisappointing !in active &&
    Count(p.rides, IsCustomDesignedHit) >= 6
  }

  predicate MostDazzlingRideColoursDeserved(p: Park, active: set<int>)
  {
    var counted := Count(p.rides, (r: Ride) => r.hasTrack);
    var colourful := Count(p.rides, IsColourful);
    MostDisappointing !in active &&
    colourful >= 5 && colourful >= counted - colourful
  }

  predicate MostConfusingLayoutDeserved(p: Park, active: set<int>)
  {
    var lost := Count(p.peeps, (g: Peep) => FreshlyThinks(g, {Lost, CantFind}));
    lost >= 10 && lost >= Count(p.peeps, InPark) / 64
  }

  predicate BestGentleRidesDeserved(p: Park, active: set<int>)
  {
    Count(p.rides, (r: Ride) => OpenInCategory(r, Gentle)) >= 10
  }

  /** The dispatch over the check table (`award_is_deserved`). */
  predicate Deserved(k: AwardKind, p: Park, active: set<int>)
  {
    if k == MostUntidy then MostUntidyDeserved(p, active)
    else if k == MostTidy then MostTidyDeserved(p, active)
    else if k == BestRollercoasters then BestRollercoastersDeserved(p, active)
    else if k == BestValue then BestValueDeserved(p, active)
    else if k == MostBeautiful then MostBeautifulDeserved(p, active)
    else if k == WorstValue then WorstValueDeserved(p, active)
    else if k == Safest then SafestDeserved(p, active)
    else if k == BestStaff then BestStaffDeserved(p, active)
    else if k == BestFood then BestFoodDeserved(p, active)
    else if k == WorstFood then WorstFoodDeserved(p, active)
    else if k == BestRestrooms then BestRestroomsDeserved(p, active)
    else if k == MostDisappointing then MostDisappointingDeserved(p, active)
    else if k == BestWaterRides then BestWaterRidesDeserved(p, active)
    else if k == BestCustomDesignedRides then BestCustomDesignedRidesDeserved(p, active)
    else if k == MostDazzlingRideColours then MostDazzlingRideColoursDeserved(p, active)
    else if k == MostConfusingLayout then MostConfusingLayoutDeserved(p, active)
    else BestGentleRidesDeserved(p, active)
  }

  /** The active awards that veto kind `k`: an independent table of the
      mutual exclusions written into the checks. */
  function Vetoes(k: AwardKind): set<int>
  {
    if k == MostUntidy then {MostBeautiful, BestStaff, MostTidy}
    else if k == MostTidy then {MostUntidy, MostDisappointing}
    else if k == BestValue then {WorstValue, MostDisappointing}
    else if k == MostBeautiful then {MostUntidy, MostDisappointing}
    else if k == WorstValue then {BestValue}
    else if k == BestStaff then {MostUntidy}
    else if k == BestFood then {WorstFood}
    else if k == WorstFood then {BestFood}
    else if k == MostDisappointing then {BestValue}
    else if k == BestCustomDesignedRides then {MostDisappointing}
    else if k == MostDazzlingRideColours then {MostDisappointing}
    else {}
  }

  // ------------------------------------------------------------ the slot table

  /** One slot of `gCurrentAwards`: the award type and the remaining time; a
      slot with time 0 is free. */
  datatype Award = Award(kind: int, time: nat)

  /** The award kind drawn from one random value: `(((r & 0xFF) * 17) >> 8) & 0xFF`. */
  function DrawKind(r: nat): (k: int)
    ensures 0 <= k < AwardCount
  {
    (((r % 256) * 17) / 256) % 256
  }

  /** Kinds held by slots with non-zero time (`activeAwardTypes`), built slot by slot. */
  function ActiveKinds(s: seq<Award>): set<int>
  {
    if s == [] then {}
    else ActiveKinds(s[..|s| - 1]) + (if s[|s| - 1].time != 0 then {s[|s| - 1].kind} else {})
  }

  /** The lowest-indexed slot with time 0 (`freeAwardEntryIndex`), built slot by slot. */
  function FirstFree(s: seq<Award>): (r: Option<nat>)
    ensures r.Some? ==> r.value < |s| && s[r.value].time == 0
    ensures r.Some? ==> forall j :: 0 <= j < r.value ==> s[j].time != 0
    ensures r.None? ==> forall j :: 0 <= j < |s| ==> s[j].time != 0
  {
    if s == [] then None
    else match FirstFree(s[..|s| - 1])
      case Some(f) => Some(f)
      case None => if s[|s| - 1].time == 0 then Some(|s| - 1) else None
  }

  /** Index of the first random value whose drawn kind is not active: where
      the rejection loop stops. */
  function FirstInactiveDraw(draws: seq<nat>, active: set<int>): (r: Option<nat>)
    ensures r.Some? ==> r.value < |draws| && DrawKind(draws[r.value]) !in active
    ensures r.Some? ==> forall j :: 0 <= j < r.value ==> DrawKind(draws[j]) in active
    ensures r.None? ==> forall j :: 0 <= j < |draws| ==> DrawKind(draws[j]) in active
  {
    if draws == [] then None
    else if DrawKind(draws[0]) !in active then Some(0)
    else match FirstInactiveDraw(draws[1..], active)
      case Some(j) => Some(j + 1)
      case None => None
  }

  /** The supplied random values suffice: whenever a draw happens, one of them hits an inactive kind. */
  predicate DrawsSuffice(s: seq<Award>, p: Park, draws: seq<nat>)
  {
    p.open && FirstFree(s).Some? ==> FirstInactiveDraw(draws, ActiveKinds(s)).Some?
  }

  /** The kind the rejection loop settles on. */
  function DrawnKind(s: seq<Award>, draws: seq<nat>): AwardKind
    requires FirstInactiveDraw(draws, ActiveKinds(s)).Some?
  {
    DrawKind(draws[FirstInactiveDraw(draws, ActiveKinds(s)).value])
  }

  /** The table after the install step of `award_update_all`. */
  function Installed(s: seq<Award>, p: Park, draws: seq<nat>): seq<Award>
    requires DrawsSuffice(s, p, draws)
  {
    if !p.open then s
    else match FirstFree(s)
      case None => s
      case Some(f) =>
        var k := DrawnKind(s, draws);
        if Deserved(k, p, ActiveKinds(s)) then s[f := Award(k, 5)] else s
  }

  /** The table after every running award has lost one unit of time. */
  function Decremented(s: seq<Award>): seq<Award>
  {
    seq(|s|, i requires 0 <= i < |s| => if s[i].time != 0 then s[i].(time := s[i].time - 1) else s[i])
  }

  /** The whole effect of one `award_update_all` call on the table. */
  function AfterUpdate(s: seq<Award>, p: Park, draws: seq<nat>): seq<Award>
    requires DrawsSuffice(s, p, draws)
  {
    Decremented(Installed(s, p, draws))
  }

  /** Notification and window-invalidation calls made by one update. */
  datatype AwardEvent = NewsAward(kind: AwardKind) | InvalidateParkInformation

  function InstallEvents(s: seq<Award>, p: Park, notify: bool, draws: seq<nat>): seq<AwardEvent>
    requires DrawsSuffice(s, p, draws)
  {
    if Installed(s, p, draws) == s then []
    else
      var k := DrawnKind(s, draws);
      (if notify then [NewsAward(k)] else []) + [InvalidateParkInformation]
  }

  /** One invalidation per slot whose time runs out. */
  function ExpiryEvents(s: seq<Award>): seq<AwardEvent>
  {
    if s == [] then []
    else ExpiryEvents(s[..|s| - 1]) + (if s[|s| - 1].time == 1 then [InvalidateParkInformation] else [])
  }

  function UpdateEvents(s: seq<Award>, p: Park, notify: bool, draws: seq<nat>): seq<AwardEvent>
    requires DrawsSuffice(s, p, draws)
  {
    InstallEvents(s, p, notify, draws) + ExpiryEvents(Installed(s, p, draws))
  }

  /** Every slot holds a kind inside the check table. */
  predicate SlotsWellFormed(s: seq<Award>)
  {
    forall i :: 0 <= i < |s| ==> 0 <= s[i].kind < AwardCount
  }

  /** No award kind is held by two running slots. */
  predicate DistinctActive(s: seq<Award>)
  {
    forall i, j :: 0 <= i < j < |s| && s[i].time != 0 && s[j].time != 0 ==> s[i].kind != s[j].kind
  }

  /** A kind belongs to the active set exactly when some running slot holds it. */
  lemma {:induction false} ActiveKindsMembership(s: seq<Award>, k: int)
    ensures k in ActiveKinds(s) <==> exists i :: 0 <= i < |s| && s[i].time != 0 && s[i].kind == k
  {
    if s != [] {
      var front := s[..|s| - 1];
      ActiveKindsMembership(front, k);
      if k in ActiveKinds(front) {
        var i :| 0 <= i < |front| && front[i].time != 0 && front[i].kind == k;
        assert s[i] == front[i];
      }
      if exists i :: 0 <= i < |s| && s[i].time != 0 && s[i].kind == k {
        var i :| 0 <= i < |s| && s[i].time != 0 && s[i].kind == k;
        if i < |s| - 1 {
          assert front[i] == s[i];
        }
      }
    }
  }

  /** Installing a kind that is not active keeps running kinds distinct. */
  lemma InstallKeepsDistinct(s: seq<Award>, p: Park, draws: seq<nat>)
    requires DrawsSuffice(s, p, draws)
    requires DistinctActive(s)
    ensures DistinctActive(Installed(s, p, draws))
  {
    var s1 := Installed(s, p, draws);
    if s1 != s {
      var f := FirstFree(s).value;
      var k := DrawnKind(s, draws);
      assert s1 == s[f := Award(k, 5)];
      forall i | 0 <= i < |s1| && i != f && s1[i].time != 0
        ensures s1[i].kind != k
      {
        ActiveKindsMembership(s, s1[i].kind);
      }
    }
  }

  /** Ageing only stops awards, so running kinds stay distinct. */
  lemma DecrementKeepsDistinct(s: seq<Award>)
    requires DistinctActive(s)
    ensures DistinctActive(Decremented(s))
  {
  }

  /** `gCurrentAwards` and the operations on it. */
  class AwardTable {
    var slots: array<Award>

    ghost predicate Valid()
      reads this, slots
    {
      slots.Length == MaxAwards && SlotsWellFormed(slots[..]) && DistinctActive(slots[..])
    }

    /** The table as a zero-initialised global. */
    constructor ()
      ensures Valid() && fresh(slots)
      ensures forall i :: 0 <= i < MaxAwards ==> slots[i] == Award(0, 0)
    {
      slots := new Award[MaxAwards](_ => Award(0, 0));
    }

    /** `award_reset`: every slot gets type 0 and time 0. */
    method Reset()
      requires Valid()
      modifies slots
      ensures Valid()
      ensures forall i :: 0 <= i < slots.Length ==> slots[i] == Award(0, 0)
    {
      for i := 0 to slots.Length
        invariant forall j :: 0 <= j < i ==> slots[j] == Award(0, 0)
        invariant forall j :: i <= j < slots.Length ==> slots[j] == old(slots[j])
      {
        slots[i] := Award(0, 0);
      }
    }

    /** The first loop of `award_update_all`: the active kinds and the first free slot. */
    method ScanSlots() returns (active: set<int>, free: Option<nat>)
      requires Valid()
      ensures active == ActiveKinds(slots[..])
      ensures free == FirstFree(slots[..])
    {
      active, free := {}, None;
      var i := 0;
      while i < slots.Length
        invariant 0 <= i <= slots.Length
        invariant active == ActiveKinds(slots[..i])
        invariant free == FirstFree(slots[..i])
      {
        assert slots[..i + 1][..i] == slots[..i];
        if slots[i].time != 0 {
          active := active + {slots[i].kind};
        } else if free == None {
          free := Some(i);
        }
        i := i + 1;
      }
      assert slots[..i] == slots[..];
    }

    /** `award_update_all`: if the park is open and a slot is free, draw an
        inactive kind and install it for 5 periods when deserved; then age
        every running award by one period. */
    method UpdateAll(p: Park, notify: bool, draws: seq<nat>) returns (events: seq<AwardEvent>)
      requires Valid()
      requires DrawsSuffice(slots[..], p, draws)
      modifies slots
      ensures Valid()
      ensures slots[..] == AfterUpdate(old(slots[..]), p, draws)
      ensures events == UpdateEvents(old(slots[..]), p, notify, draws)
    {
      events := InstallStep(p, notify, draws);
      var expired := DecrementStep();
      events := events + expired;
    }

    /** The install half of `award_update_all`. */
    method InstallStep(p: Park, notify: bool, draws: seq<nat>) returns (events: seq<AwardEvent>)
      requires Valid()
      requires DrawsSuffice(slots[..], p, draws)
      modifies slots
      ensures Valid()
      ensures slots[..] == Installed(old(slots[..]), p, draws)
      ensures events == InstallEvents(old(slots[..]), p, notify, draws)
    {
      ghost var s0 := slots[..];
      events := [];
      if p.open {
        var active, free := ScanSlots();
        if free.Some? {
          var k, used := DrawAwardKind(active, draws);
          assert k == DrawnKind(s0, draws);
          if Deserved(k, p, active) {
            slots[free.value] := Award(k, 5);
            assert slots[..] == s0[free.value := Award(k, 5)];
            assert slots[..] != s0 by { assert slots[free.value].time != s0[free.value].time; }
            if notify {
              events := events + [NewsAward(k)];
            }
            events := events + [InvalidateParkInformation];
          }
        }
      }
      InstallKeepsDistinct(s0, p, draws);
    }

    /** The ageing half of `award_update_all`: every running award loses one
        period, and each one that reaches 0 invalidates the park window. */
    method DecrementStep() returns (events: seq<AwardEvent>)
      requires Valid()
      modifies slots
      ensures Valid()
      ensures slots[..] == Decremented(old(slots[..]))
      ensures events == ExpiryEvents(old(slots[..]))
    {
      ghost var s1 := slots[..];
      events := [];
      for i := 0 to slots.Length
        invariant forall j :: 0 <= j < i ==> slots[j] == Decremented(s1)[j]
        invariant forall j :: i <= j < slots.Length ==> slots[j] == s1[j]
        invariant events == ExpiryEvents(s1[..i])
      {
        assert s1[..i + 1][..i] == s1[..i];
        if slots[i].time != 0 {
          slots[i] := slots[i].(time := slots[i].time - 1);
          if slots[i].time == 0 {
            events := events + [InvalidateParkInformation];
          }
        }
      }
      assert s1[..slots.Length] == s1;
      assert slots[..] == Decremented(s1);
      DecrementKeepsDistinct(s1);
    }
  }

  /** The rejection loop: draw until a kind that is not active comes up. */
  method DrawAwardKind(active: set<int>, draws: seq<nat>) returns (k: AwardKind, used: nat)
    requires FirstInactiveDraw(draws, active).Some?
    ensures k !in active
    ensures 0 < used <= |draws| && k == DrawKind(draws[used - 1])
    ensures forall j :: 0 <= j < used - 1 ==> DrawKind(draws[j]) in active
  {
    ghost var stop := FirstInactiveDraw(draws, active).value;
    var i := 0;
    k := DrawKind(draws[0]);
    while k in active
      invariant 0 <= i <= stop && k == DrawKind(draws[i])
      invariant forall j :: 0 <= j < i ==> DrawKind(draws[j]) in active
      decreases stop - i
    {
      i := i + 1;
      k := DrawKind(draws[i]);
    }
    used := i + 1;
  }
}

/** What the award evaluator promises, stated over the model above. */
module AwardProperties {
  import opened Base
  import opened Awards

  /** The negative awards are exactly the five "worst"/"most" penalties. */
  lemma PositiveKinds(k: AwardKind)
    ensures !IsPositive(k) <==> k in {MostUntidy, WorstValue, WorstFood, MostDisappointing, MostConfusingLayout}
  {
  }

  /** Every veto pairs a positive award with a negative one, so a park is
      never told it is, say, both the tidiest and the most untidy. */
  lemma VetoesOppositePolarity(k: AwardKind, v: AwardKind)
    requires v in Vetoes(k)
    ensures IsPositive(v) != IsPositive(k)
  {
  }

  /** A check never succeeds while one of its vetoing awards is active. */
  lemma VetoRespected(k: AwardKind, p: Park, active: set<int>)
    requires Deserved(k, p, active)
    ensures Vetoes(k) * active == {}
  {
  }

  /** The active set matters to a check only through its vetoes. */
  lemma OnlyVetoesMatter(k: AwardKind, p: Park, active: set<int>)
    requires Vetoes(k) * active == {}
    ensures Deserved(k, p, active) == Deserved(k, p, {})
  {
    if k == MostUntidy {
      NotVetoedWhenInactive(k, active, MostBeautiful);
      NotVetoedWhenInactive(k, active, BestStaff);
      NotVetoedWhenInactive(k, active, MostTidy);
    } else if k == MostTidy {
      NotVetoedWhenInactive(k, active, MostUntidy);
      NotVetoedWhenInactive(k, active, MostDisappointing);
    } else if k == BestValue {
      NotVetoedWhenInactive(k, active, WorstValue);
      NotVetoedWhenInactive(k, active, MostDisappointing);
    } else if k == MostBeautiful {
      NotVetoedWhenInactive(k, active, MostUntidy);
      NotVetoedWhenInactive(k, active, MostDisappointing);
    } else if k == WorstValue {
      NotVetoedWhenInactive(k, active, BestValue);
    } else if k == BestStaff {
      NotVetoedWhenInactive(k, active, MostUntidy);
    } else if k == BestFood {
      NotVetoedWhenInactive(k, active, WorstFood);
    } else if k == WorstFood {
      NotVetoedWhenInactive(k, active, BestFood);
    } else if k == MostDisappointing {
      NotVetoedWhenInactive(k, active, BestValue);
    } else if k == BestCustomDesignedRides {
      NotVetoedWhenInactive(k, active, MostDisappointing);
    } else if k == MostDazzlingRideColours {
      NotVetoedWhenInactive(k, active, MostDisappointing);
    }
  }

  /** A veto of `k` that misses the active set is not active. */
  lemma NotVetoedWhenInactive(k: AwardKind, active: set<int>, v: AwardKind)
    requires Vetoes(k) * active == {} && v in Vetoes(k)
    ensures v !in active
  {
    assert v !in Vetoes(k) * active;
  }

  /** Every kind is produced by some random byte: the draw can reach all 17 kinds. */
  lemma DrawKindCoversAllKinds(k: AwardKind)
    ensures exists r: nat :: r < 256 && DrawKind(r) == k
  {
    var r := (k * 256 + 16) / 17;
    assert r * 17 >= k * 256 && r * 17 < (k + 1) * 256;
    assert DrawKind(r) == k;
  }

  /** With four slots and one of them free, at most three kinds are active, so
      some kind is always inactive. */
  lemma InactiveKindExists(s: seq<Award>)
    requires |s| == MaxAwards && FirstFree(s).Some?
    ensures exists k: AwardKind :: k !in ActiveKinds(s)
  {
    var f := FirstFree(s).value;
    var others := {s[(f + 1) % 4].kind, s[(f + 2) % 4].kind, s[(f + 3) % 4].kind};
    forall k | k in ActiveKinds(s)
      ensures k in others
    {
      ActiveKindsMembership(s, k);
      var i :| 0 <= i < |s| && s[i].time != 0 && s[i].kind == k;
      assert i != f;
    }
    if 0 !in others {
      assert (0 as AwardKind) !in ActiveKinds(s);
    } else if 1 !in others {
      assert (1 as AwardKind) !in ActiveKinds(s);
    } else if 2 !in others {
      assert (2 as AwardKind) !in ActiveKinds(s);
    } else {
      assert 3 !in others;
      assert (3 as AwardKind) !in ActiveKinds(s);
    }
  }

  /** The rejection loop can always stop: for any table there is a single
      random value that satisfies the draw precondition. */
  lemma DrawCanAlwaysStop(s: seq<Award>, p: Park)
    requires |s| == MaxAwards
    ensures exists r: nat :: r < 256 && DrawsSuffice(s, p, [r])
  {
    if FirstFree(s).Some? {
      InactiveKindExists(s);
      var k: AwardKind :| k !in ActiveKinds(s);
      DrawKindCoversAllKinds(k);
      var r: nat :| r < 256 && DrawKind(r) == k;
      assert FirstInactiveDraw([r], ActiveKinds(s)) == Some(0);
    } else {
      assert DrawsSuffice(s, p, [0]);
    }
  }

  /** Install rule: one update differs from plain ageing at most in the lowest
      free slot, and only when the park is open and the drawn, inactive kind is
      deserved; that slot then holds the kind with time 4 (installed at 5, aged once). */
  lemma InstallRule(s: seq<Award>, p: Park, draws: seq<nat>)
    requires DrawsSuffice(s, p, draws)
    ensures |AfterUpdate(s, p, draws)| == |s|
    ensures forall i :: 0 <= i < |s| && AfterUpdate(s, p, draws)[i] != Decremented(s)[i] ==>
      && p.open && FirstFree(s) == Some(i)
      && DrawnKind(s, draws) !in ActiveKinds(s)
      && Deserved(DrawnKind(s, draws), p, ActiveKinds(s))
      && AfterUpdate(s, p, draws)[i] == Award(DrawnKind(s, draws), 4)
    ensures p.open && FirstFree(s).Some? && Deserved(DrawnKind(s, draws), p, ActiveKinds(s)) ==>
      AfterUpdate(s, p, draws)[FirstFree(s).value] == Award(DrawnKind(s, draws), 4)
  {
  }

  /** Ageing: each running slot loses exactly one unit, free slots stay free,
      and no slot changes its kind. */
  lemma DecrementRule(s: seq<Award>, i: nat)
    requires i < |s|
    ensures |Decremented(s)| == |s|
    ensures Decremented(s)[i].kind == s[i].kind
    ensures s[i].time == 0 ==> Decremented(s)[i].time == 0
    ensures s[i].time != 0 ==> Decremented(s)[i].time + 1 == s[i].time
  {
  }

  /** An award that gets installed is never vetoed by the awards already running. */
  lemma InstalledAwardNotVetoed(s: seq<Award>, p: Park, draws: seq<nat>, i: nat)
    requires DrawsSuffice(s, p, draws)
    requires i < |s| && AfterUpdate(s, p, draws)[i] != Decremented(s)[i]
    ensures Vetoes(AfterUpdate(s, p, draws)[i].kind) * ActiveKinds(s) == {}
  {
    InstallRule(s, p, draws);
    VetoRespected(DrawnKind(s, draws), p, ActiveKinds(s));
  }

  /** If no kind is held twice by running slots, the same holds after an update. */
  lemma UpdatePreservesDistinct(s: seq<Award>, p: Park, draws: seq<nat>)
    requires DrawsSuffice(s, p, draws)
    requires DistinctActive(s)
    ensures DistinctActive(AfterUpdate(s, p, draws))
  {
    InstallKeepsDistinct(s, p, draws);
    DecrementKeepsDistinct(Installed(s, p, draws));
  }

  /** Updating keeps every slot's kind inside the check table. */
  lemma UpdatePreservesWellFormed(s: seq<Award>, p: Park, draws: seq<nat>)
    requires DrawsSuffice(s, p, draws)
    requires SlotsWellFormed(s)
    ensures SlotsWellFormed(AfterUpdate(s, p, draws))
  {
  }

  /** Most Untidy: no vetoing award active, and strictly more than a sixteenth
      of the park's guest count are in-park guests freshly thinking about litter,
      a disgusting path or vandalism. */
  lemma MostUntidyThreshold(p: Park, active: set<int>)
    ensures MostUntidyDeserved(p, active) <==>
      && MostBeautiful !in active && BestStaff !in active && MostTidy !in active
      && |Matching(p.peeps, ThinksUntidy)| > p.numGuestsInPark / 16
  {
    CountIsMatchingSize(p.peeps, ThinksUntidy);
  }

  /** With no guest freshly thinking an untidy thought (in particular with no
      guests at all), Most Untidy is not deserved. */
  lemma MostUntidyNeedsUntidyGuests(p: Park, active: set<int>)
    requires forall i :: 0 <= i < |p.peeps| ==> !ThinksUntidy(p.peeps[i])
    ensures !MostUntidyDeserved(p, active)
  {
    CountIsMatchingSize(p.peeps, ThinksUntidy);
    assert Matching(p.peeps, ThinksUntidy) == {};
  }

  /** Best Rollercoasters: at least six rides with an entry, open, not crashed
      and in the rollercoaster category. */
  lemma BestRollercoastersThreshold(p: Park, active: set<int>)
    ensures BestRollercoastersDeserved(p, active) <==> |Matching(p.rides, IsRollercoaster)| >= 6
  {
    CountIsMatchingSize(p.rides, IsRollercoaster);
  }

  /** Six qualifying rollercoasters earn the award; five do not. */
  lemma BestRollercoastersSixNotFive(p: Park, active: set<int>, r: Ride)
    requires IsRollercoaster(r)
    ensures BestRollercoastersDeserved(p.(rides := Repeat(r, 6)), active)
    ensures !BestRollercoastersDeserved(p.(rides := Repeat(r, 5)), active)
  {
    CountRepeat(r, 6, IsRollercoaster);
    CountRepeat(r, 5, IsRollercoaster);
  }

  /** Most Disappointing with no rated rides: 0 >= 0 / 2 holds, so the award
      is deserved whenever the rating is at most 650 and Best Value is not active. */
  lemma MostDisappointingWithoutRatedRides(p: Park, active: set<int>)
    requires forall i :: 0 <= i < |p.rides| ==> !IsRatedRide(p.rides[i])
    requires BestValue !in active && p.rating <= 650
    ensures MostDisappointingDeserved(p, active)
  {
    CountIsMatchingSize(p.rides, IsRatedRide);
    assert Matching(p.rides, IsRatedRide) == {};
  }

  /** Best Value and Worst Value exclude each other. */
  lemma ValueAwardsExclusive(p: Park, active: set<int>)
    ensures WorstValue in active ==> !BestValueDeserved(p, active)
    ensures BestValue in active ==> !WorstValueDeserved(p, active)
    ensures !(BestValueDeserved(p, {}) && WorstValueDeserved(p, {}))
  {
  }

  /** Best Food and Worst Food exclude each other even without their vetoes:
      one needs four distinct food items on sale, the other at most two. */
  lemma FoodAwardsExclusive(p: Park, active: set<int>)
    ensures WorstFood in active ==> !BestFoodDeserved(p, active)
    ensures BestFood in active ==> !WorstFoodDeserved(p, active)
    ensures !(BestFoodDeserved(p, {}) && WorstFoodDeserved(p, {}))
  {
  }

  /** A single ride whose last crash is recorded costs the park Safest,
      whatever its guests think. */
  lemma SafestNeedsNoCrashes(p: Park, active: set<int>, i: nat)
    requires i < |p.rides| && p.rides[i].lastCrashType != CrashTypeNone
    ensures !SafestDeserved(p, active)
  {
  }
}
