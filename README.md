# OpenRCT2 park awards, scenery ageing and chairlift painting in Dafny

This project models three parts of OpenRCT2, the open-source re-implementation
of RollerCoaster Tycoon 2, and proves properties of each.

- **Park awards** (`awards.dfy`, modules `Awards` and `AwardProperties`).
  - The seventeen award kinds, their polarity, and the deservedness check of
    each kind over a snapshot of the park's guests, rides and finances.
  - The dispatch over the check table.
  - The table of four award slots: `award_reset` clears it; `award_update_all`
    draws a kind that is not already running, installs it in the first free
    slot if the park is open and the kind is deserved, then ages every running
    award by one unit.
  - The table is a class over an `array` of slots. Its methods are proved
    against functions on the slot sequence, and the award rules are proved as
    lemmas about those functions.
- **Scenery** (`scenery.dfy`, module `Scenery`, over the tile model in
  `tile_grid.dfy`).
  - The `get_*_entry` lookups into the loaded-object arrays.
  - The scenery id numbering and its inverse.
  - The wall door-sound field.
  - Plant ageing: `scenery_increase_age`, `scenery_update_age` (including the
    scan for a shelter above a plant in the rain), and `scenery_update_tile`,
    which walks a tile's elements and also starts jumping fountains.
  - The map's elements are an `array` that these methods update in place.
- **Chairlift track painting** (`chairlift.dfy`, module `Chairlift`).
  - The support helper with its fallback round.
  - The fuzzy track lookup and the first/last-station tests.
  - The two station painters and their dispatch by axis.
  - The flat, sloped and turning painters.
  - The four delegating painters.
  - The track-type-to-painter table.
- **Painting model.**
  - A `PaintSession` class records the draw calls and pushed tunnels. It also
    holds the nine support segments and the general support height.
  - Every painter is proved against a function (`PaintSpec`) that says what
    the painter draws.
  - The chairlift's drawing rules are proved as lemmas about that function.
- Helpers shared by the modules are in `base.dfy`: an `Option` type and
  counting over sequences.

Each award check and each painter follows its branches in the source.
Guest, ride and park data are plain records. The sprite ids, tunnel types,
flag bits and other header constants the source refers to were written from
the OpenRCT2 headers, because those headers are not part of this model.

The model follows the code as written in these places, which are easy to misread:

- A waterable plant in the rain with age below 5 is aged, not watered. The
  shelter scan and the reset to age 0 happen only from age 5 upwards
  (`world/scenery.c:131-138`).
- The shelter scan stops at the first element whose low three flag bits are
  set. It does not stop at the tile's last-element flag
  (`world/scenery.c:142`).
- `scenery_increase_age` tests the small-scenery "animated" bit (0x10) against
  the tile element's flag byte. That byte holds the ghost flag at the same bit,
  so ghost plants never age (`Scenery.GhostsNeverAge`).
- Most Untidy is vetoed by three active awards: Most Beautiful, Best Staff and
  Most Tidy (`management/Award.cpp:88-93`).
- The south-east/north-west station pushes its right tunnel only when its
  right-hand column is drawn. The north-east/south-west station always pushes
  its left tunnel (`ride/transport/Chairlift.cpp:268, 351-358`,
  `Chairlift.StationTunnels`).

## Model

| member | source | states |
|---|---|---|
| Awards.IsPositive | src/openrct2/management/Award.cpp:30-77 | the polarity of each of the 17 kinds, read from the positive map |
| Awards.MostUntidyDeserved | src/openrct2/management/Award.cpp:82-113 | vetoed by Most Beautiful, Best Staff and Most Tidy; otherwise more than 1/16 of the park's guests freshly think untidy thoughts |
| Awards.MostTidyDeserved | src/openrct2/management/Award.cpp:116-151 | vetoed by Most Untidy and Most Disappointing; at most 5 untidy thinkers and more than 1/64 of the guests freshly thinking very clean |
| Awards.BestRollercoastersDeserved | src/openrct2/management/Award.cpp:154-183 | at least six open, uncrashed rides with a loaded entry in the rollercoaster category |
| Awards.BestValueDeserved | src/openrct2/management/Award.cpp:186-204 | vetoed by Worst Value and Most Disappointing; the park charges, total ride value is at least 100 and the entrance fee plus one is below half of it |
| Awards.MostBeautifulDeserved | src/openrct2/management/Award.cpp:207-241 | vetoed by Most Untidy and Most Disappointing; at most 15 untidy thinkers and more than 1/128 of the guests freshly admiring the scenery |
| Awards.WorstValueDeserved | src/openrct2/management/Award.cpp:244-257 | vetoed by Best Value; the park charges a non-zero entrance fee above the total ride value |
| Awards.SafestDeserved | src/openrct2/management/Award.cpp:260-287 | at most two guests freshly thinking of vandalism and no ride with a recorded crash |
| Awards.BestStaffDeserved | src/openrct2/management/Award.cpp:290-318 | vetoed by Most Untidy; a staff member of one of the four staff types, at least 20 staff, and at least one staff member per 32 guests |
| Awards.BestFoodDeserved | src/openrct2/management/Award.cpp:321-371 | vetoed by Worst Food; at least seven open food shops selling at least four distinct items, one shop per 128 guests, at most 12 hungry guests |
| Awards.WorstFoodDeserved | src/openrct2/management/Award.cpp:374-424 | vetoed by Best Food; at most two distinct items, at most one shop per 256 guests, more than 15 hungry guests |
| Awards.BestRestroomsDeserved | src/openrct2/management/Award.cpp:427-462 | at least four open restrooms, one per 128 guests, and at most 16 guests freshly needing one |
| Awards.MostDisappointingDeserved | src/openrct2/management/Award.cpp:465-493 | vetoed by Best Value; a park rating of at most 650 and at least half of the rated rides unpopular |
| Awards.BestWaterRidesDeserved | src/openrct2/management/Award.cpp:496-525 | at least six open, uncrashed water rides |
| Awards.BestCustomDesignedRidesDeserved | src/openrct2/management/Award.cpp:528-552 | vetoed by Most Disappointing; at least six open, uncrashed custom-designed tracked rides with excitement of at least 550 |
| Awards.MostDazzlingRideColoursDeserved | src/openrct2/management/Award.cpp:555-587 | vetoed by Most Disappointing; at least five tracked rides in a dazzling main colour, and no fewer of them than of the other tracked rides |
| Awards.MostConfusingLayoutDeserved | src/openrct2/management/Award.cpp:590-609 | at least ten lost guests, and at least one per 64 guests in the park |
| Awards.BestGentleRidesDeserved | src/openrct2/management/Award.cpp:612-641 | at least ten open, uncrashed gentle rides |
| Awards.Deserved | src/openrct2/management/Award.cpp:645-669 | the check table dispatches each kind to its own check, in the table's order |
| Awards.Vetoes | src/openrct2/management/Award.cpp:82-641 | the table of active kinds that block each kind, collected from the checks |
| Awards.DrawKind | src/openrct2/management/Award.cpp:707-711 | the kind drawn from a random value, `((r & 0xFF) * 17) >> 8`, is always one of the 17 kinds |
| Awards.FirstFree | src/openrct2/management/Award.cpp:694-700 | the free slot found is the lowest-indexed slot with time 0; none means every slot is running |
| Awards.FirstInactiveDraw | src/openrct2/management/Award.cpp:707-711 | the rejection loop stops at the first random value whose kind is not active; values before it all hit active kinds |
| Awards.AwardTable.Reset | src/openrct2/management/Award.cpp:673-680 | every slot gets type 0 and time 0 |
| Awards.AwardTable.ScanSlots | src/openrct2/management/Award.cpp:691-700 | the first loop yields the set of kinds held by running slots and the first free slot |
| Awards.AwardTable.UpdateAll | src/openrct2/management/Award.cpp:686-735 | the new table is the install step followed by ageing; the notifications are those of both steps; no kind is ever held by two running slots |
| Awards.AwardTable.InstallStep | src/openrct2/management/Award.cpp:688-726 | if the park is open and a slot is free, the drawn kind is installed in the first free slot with time 5 when it is deserved; otherwise nothing changes |
| Awards.AwardTable.DecrementStep | src/openrct2/management/Award.cpp:728-734 | every running award loses one unit of time; a window invalidation is emitted for each one that reaches zero |
| Awards.DrawAwardKind | src/openrct2/management/Award.cpp:707-711 | the drawn kind is not active, is the kind of the last value used, and every earlier value hit an active kind |
| Awards.Installed | src/openrct2/management/Award.cpp:688-726 | on an open park with a free slot, the drawn kind goes into the first free slot with time 5 when it is deserved; otherwise the table is as it was |
| Awards.Decremented | src/openrct2/management/Award.cpp:728-734 | every running slot loses one unit of time; free slots stay free |
| AwardProperties.PositiveKinds | src/openrct2/management/Award.cpp:30-77 | exactly Most Untidy, Worst Value, Worst Food, Most Disappointing and Most Confusing Layout are negative |
| AwardProperties.VetoesOppositePolarity | src/openrct2/management/Award.cpp:82-641 | every veto written into a check pairs a positive award with a negative one |
| AwardProperties.VetoRespected | src/openrct2/management/Award.cpp:82-669 | no check succeeds while one of its vetoing awards is active |
| AwardProperties.OnlyVetoesMatter | src/openrct2/management/Award.cpp:82-669 | the active set influences a check only through that check's vetoes |
| AwardProperties.DrawKindCoversAllKinds | src/openrct2/management/Award.cpp:709 | each of the 17 kinds is drawn by some random byte |
| Awards.ActiveKindsMembership | src/openrct2/management/Award.cpp:694-700 | a kind is active exactly when some running slot holds it |
| AwardProperties.InactiveKindExists | src/openrct2/management/Award.cpp:694-711 | with four slots and one free, some kind is not active, so the draw has a value to stop at |
| AwardProperties.DrawCanAlwaysStop | src/openrct2/management/Award.cpp:707-711 | for any table, a single random byte suffices for the rejection loop |
| AwardProperties.InstallRule | src/openrct2/management/Award.cpp:688-734 | an update differs from plain ageing in at most the lowest free slot, which then holds the drawn deserved kind with time 4 after ageing; a deserved kind in an open park is always installed |
| AwardProperties.DecrementRule | src/openrct2/management/Award.cpp:728-734 | ageing keeps every kind; free slots stay free and running slots lose exactly one unit |
| AwardProperties.InstalledAwardNotVetoed | src/openrct2/management/Award.cpp:703-724 | a newly installed award is never vetoed by the awards that were running |
| Awards.InstallKeepsDistinct | src/openrct2/management/Award.cpp:703-724 | installing a drawn kind, which is never already active, keeps every running kind held by one slot only |
| Awards.DecrementKeepsDistinct | src/openrct2/management/Award.cpp:728-734 | ageing keeps every running kind held by one slot only |
| AwardProperties.UpdatePreservesDistinct | src/openrct2/management/Award.cpp:686-735 | if no kind is held by two running slots, the same holds after an update |
| AwardProperties.UpdatePreservesWellFormed | src/openrct2/management/Award.cpp:686-735 | updating keeps every slot's kind inside the check table |
| AwardProperties.MostUntidyThreshold | src/openrct2/management/Award.cpp:82-113 | Most Untidy is deserved iff it is not vetoed and strictly more than a sixteenth of the guests in the park freshly think of litter, a disgusting path or vandalism |
| AwardProperties.MostUntidyNeedsUntidyGuests | src/openrct2/management/Award.cpp:82-113 | without guests freshly thinking untidy thoughts, including a park with no guests, Most Untidy is never deserved |
| AwardProperties.BestRollercoastersThreshold | src/openrct2/management/Award.cpp:154-183 | Best Rollercoasters is deserved iff at least six rides are open, uncrashed rollercoasters with a loaded entry |
| AwardProperties.BestRollercoastersSixNotFive | src/openrct2/management/Award.cpp:154-183 | six qualifying rollercoasters earn the award and five do not |
| AwardProperties.MostDisappointingWithoutRatedRides | src/openrct2/management/Award.cpp:465-493 | with no rated rides, a park rated 650 or lower with Best Value inactive gets Most Disappointing |
| AwardProperties.ValueAwardsExclusive | src/openrct2/management/Award.cpp:186-257 | Best Value and Worst Value veto each other and are never both deserved |
| AwardProperties.FoodAwardsExclusive | src/openrct2/management/Award.cpp:321-424 | Best Food and Worst Food veto each other and are never both deserved, even without the vetoes |
| AwardProperties.SafestNeedsNoCrashes | src/openrct2/management/Award.cpp:260-287 | one ride with a recorded crash rules out Safest |
| Scenery.Lookup | src/openrct2/world/scenery.c:270-316 | a lookup yields an entry iff the index is below the group count and the slot is loaded, and then it yields that slot |
| Scenery.LookupBeyondCapacity | src/openrct2/ObjectList.h:15-21 | an index at or beyond an array's capacity never yields an entry |
| Scenery.SceneryIdFromEntryIndex | src/openrct2/world/scenery.c:318-328 | the id is -1 exactly for object types without scenery ids; loadable entries get ids below 0x500 |
| Scenery.EntryFromSceneryId | src/openrct2/world/scenery.c:318-328 | reads a scenery id back as its object type (one block of 256 ids per type) and entry index; ids outside the five blocks or past a type's capacity name no entry |
| Scenery.SceneryIdRoundTrip | src/openrct2/world/scenery.c:318-328 | the id of every loadable entry reads back to that entry |
| Scenery.EntryFromSceneryIdRoundTrip | src/openrct2/world/scenery.c:318-328 | every id that reads back to an entry is that entry's id |
| Scenery.SceneryIdsDistinct | src/openrct2/world/scenery.c:318-328 | distinct loadable entries never share an id |
| Scenery.DoorSound | src/openrct2/world/scenery.c:330-333 | the door sound is a two-bit value |
| Scenery.DoorSoundRoundTrip | src/openrct2/world/scenery.c:330-333 | a door sound stored in the field reads back unchanged |
| Scenery.DoorSoundIsTheWholeField | src/openrct2/world/scenery.c:330-333 | the sound read covers the whole field: storing it back changes nothing |
| Scenery.IncreasedAge | src/openrct2/world/scenery.c:174-183 | one age step: unchanged when the animated bit is set or the age is 255, otherwise one more |
| Scenery.AgedTimes | src/openrct2/world/scenery.c:174-183 | repeated age increases keep the element's flags and its small-scenery kind |
| Scenery.AgeSaturates | src/openrct2/world/scenery.c:174-183 | after n increases, age is min(old + n, 255) unless the animated bit is set, in which case nothing changes |
| Scenery.GhostsNeverAge | src/openrct2/world/scenery.c:174-183 | the increase changes the element iff it is not a ghost and its age is below 255 |
| Scenery.ShelterScan | src/openrct2/world/scenery.c:141-165 | the scan above a plant: exposed at the first element with a low flag bit, sheltered under large scenery, an entrance, a path or centred small scenery, ghosts skipped, undefined where the source reads past its data |
| Scenery.ShelteredIff | src/openrct2/world/scenery.c:141-165 | the plant is sheltered iff the scan can get past every element up to some blocker, whichever blocker that is |
| Scenery.ExposedIff | src/openrct2/world/scenery.c:141-171 | the plant is exposed iff the scan reaches an element with a low flag bit set and no blocker or unloaded entry lies before it |
| Scenery.AgeStepAt | src/openrct2/world/scenery.c:115-172 | the decision of one ageing call: unchanged for an unloaded entry or a waterable plant under the cheat, aged when not waterable, dry or younger than 5, otherwise by the shelter scan |
| Scenery.EarlyExits | src/openrct2/world/scenery.c:120-129 | an unloaded entry, or a waterable plant with plant ageing disabled, leaves the plant as it was |
| Scenery.NotWateredPath | src/openrct2/world/scenery.c:131-138 | a plant that is not waterable, not in rain or younger than 5 is aged by one step, whatever lies above it |
| Scenery.WateringResetsAge | src/openrct2/world/scenery.c:141-171 | a watered plant gets age 0 and nothing else changes; watering happens only when the scan finds no blocker |
| Scenery.ShelterScanIgnoresAges | src/openrct2/world/scenery.c:141-165 | the shelter scan does not read plant ages |
| Scenery.AgeStepIgnoresOtherAges | src/openrct2/world/scenery.c:115-171 | the decision for a plant depends on no other element's age |
| Scenery.IncreaseAge | src/openrct2/world/scenery.c:174-183 | the element at k becomes its increased-age form and no other element changes |
| Scenery.FindShelter | src/openrct2/world/scenery.c:141-165 | walking the arena gives the outcome of the shelter scan |
| Scenery.UpdateAge | src/openrct2/world/scenery.c:115-172 | the plant at k becomes what the age decision makes of it and no other element changes |
| Scenery.FountainAt | src/openrct2/world/scenery.c:95-106 | a visited path with a loaded, non-ghost addition starts a water fountain, or else a snow fountain, when its entry has that flag |
| Scenery.Visit | src/openrct2/world/scenery.c:84-107 | a visited small-scenery element gets its age decision applied; every other element is as it was |
| Scenery.Walked | src/openrct2/world/scenery.c:84-109 | the arena after the walk has passed a prefix of the tile's elements, of the same length as before |
| Scenery.FountainsFromPaths | src/openrct2/world/scenery.c:95-106 | every fountain the walk starts comes from a path element inside the walked range, in arena order and at most one per element |
| Scenery.WalkedAt | src/openrct2/world/scenery.c:84-109 | after the walk has passed the elements before i, exactly those of them have been visited and every other element is as it was |
| Scenery.WalkedSameButAges | src/openrct2/world/scenery.c:79-109 | the tile walk changes plant ages only |
| Scenery.WalkTouchesOnlyPlantAges | src/openrct2/world/scenery.c:79-109 | an element the walk changes lies on the tile, was visited, and is a plant that keeps its flags and kind |
| Scenery.VisitElement | src/openrct2/world/scenery.c:84-107 | one loop pass updates a visited plant's age or records a fountain for a path with a jumping-fountain addition |
| Scenery.WalkOne | src/openrct2/world/scenery.c:84-109 | one pass of the do-while loop extends the walked arena and the started fountains by one element, and reports whether that element closes the tile |
| Scenery.WalkTile | src/openrct2/world/scenery.c:84-109 | the loop ends after the element flagged last for the tile, leaving the walked arena and the fountains of the tile's elements |
| Scenery.UpdateTile | src/openrct2/world/scenery.c:79-109 | the arena after the walk is the walked arena over the tile's elements, and the fountains started are those of the tile's elements in order |
| Chairlift.RotateSegments | src/openrct2/ride/transport/Chairlift.cpp:625 | the eight outer segment bits rotate by two places per quarter turn; the centre bit stays |
| Chairlift.FullTurnRestoresSegments | src/openrct2/ride/transport/Chairlift.cpp:625 | rotating a segment mask a quarter turn and then three more quarter turns gives the mask back |
| Chairlift.TurnSupportSegments | src/openrct2/ride/transport/Chairlift.cpp:625 | the quarter turn's supports go on two edge segments that rotate with the direction |
| Chairlift.AllSegmentsAddressed | src/openrct2/ride/transport/Chairlift.cpp:395 | the all-segments mask addresses each of the nine segments |
| Chairlift.SupportCallsShape | src/openrct2/ride/transport/Chairlift.cpp:85-101 | a support round calls each addressed segment, and no other, at the given height with that segment's height |
| Chairlift.AnyAccepted | src/openrct2/ride/transport/Chairlift.cpp:85-101 | the first round succeeds iff some addressed segment's attempt is accepted |
| Chairlift.SupportCalls | src/openrct2/ride/transport/Chairlift.cpp:85-101 | one truss call per addressed segment in index order, each seeing that segment's height |
| Chairlift.SupportEvents | src/openrct2/ride/transport/Chairlift.cpp:81-115 | the first round of calls, followed by the fallback round at the general support height only when no call of the first round succeeded |
| Chairlift.SupportRule | src/openrct2/ride/transport/Chairlift.cpp:81-115 | every addressed segment is attempted; the fallback round happens exactly when no attempt succeeded, and then each call sees the general support height |
| Chairlift.CallsCount | src/openrct2/ride/transport/Chairlift.cpp:103-114 | the fallback round makes as many calls as the first |
| Chairlift.FuzzyScan | src/openrct2/ride/transport/Chairlift.cpp:126-138 | the result is the first element of the tile that is the ride's track at height z or z - 1; none means no such element |
| Chairlift.FuzzyTrack | src/openrct2/ride/transport/Chairlift.cpp:117-139 | none exactly when the map has no such tile or no element of the tile matches |
| Chairlift.FindTrackFuzzy | src/openrct2/ride/transport/Chairlift.cpp:117-139 | the do-while walk finds what the fuzzy lookup specifies |
| Chairlift.ToInt16 | src/openrct2/ride/transport/Chairlift.cpp:150-153 | the cast wraps into the signed 16-bit range and is the identity inside it |
| Chairlift.IsFirstTrack | src/openrct2/ride/transport/Chairlift.cpp:141-159 | only a begin-station piece can be the first track |
| Chairlift.IsLastTrack | src/openrct2/ride/transport/Chairlift.cpp:161-179 | only an end-station piece can be the last track |
| Chairlift.LastIsFirstTurnedAround | src/openrct2/ride/transport/Chairlift.cpp:141-179 | the last-track test is the first-track test of the piece turned around |
| Chairlift.StationEndsExclusive | src/openrct2/ride/transport/Chairlift.cpp:141-179 | a piece is never both first and last |
| Chairlift.CheckFirstTrack | src/openrct2/ride/transport/Chairlift.cpp:141-159 | the test run through the lookup gives the first-track answer |
| Chairlift.CheckLastTrack | src/openrct2/ride/transport/Chairlift.cpp:161-179 | the test run through the lookup gives the last-track answer |
| Chairlift.BullwheelFrame | src/openrct2/ride/transport/Chairlift.cpp:78-79 | the 16-bit wheel rotation always selects one of the four bullwheel frames |
| Chairlift.TrackPaintFunction | src/openrct2/ride/transport/Chairlift.cpp:639-672 | a painter exists exactly for the twelve chairlift track pieces |
| Chairlift.PaintersDistinguishPieces | src/openrct2/ride/transport/Chairlift.cpp:639-672 | only the three station pieces share a painter |
| Chairlift.Canonical | src/openrct2/ride/transport/Chairlift.cpp:545-636 | the downhill pieces hand over to their uphill mirror turned by a half turn, the right turn to the left turn turned by three quarters |
| Chairlift.Clearance | src/openrct2/ride/transport/Chairlift.cpp:269-628 | the height above the base each painter raises the general support height to |
| Chairlift.PaintSpec | src/openrct2/ride/transport/Chairlift.cpp:365-636 | everything a painter emits: its sprites and tunnels, then its support events where it has supports; delegating painters emit what their target emits |
| Chairlift.DelegationWellFormed | src/openrct2/ride/transport/Chairlift.cpp:545-636 | delegation lands on a painter that draws itself, and it is one-to-one in the direction |
| Chairlift.ClearanceTable | src/openrct2/ride/transport/Chairlift.cpp:269-628 | each piece's general support height above its base: 32 flat, station and turn; 56 slope; 48 and 40 for the transitions and their mirrors |
| Chairlift.AsUInt16 | src/openrct2/ride/transport/Chairlift.cpp:81 | heights passed to the support helper are 16-bit unsigned, and unchanged when already in range |
| Chairlift.DelegationPaintsTarget | src/openrct2/ride/transport/Chairlift.cpp:545-636 | a delegating painter paints exactly what its target paints in the handed-over direction, with the same clearance |
| Chairlift.NeSwHead | src/openrct2/ride/transport/Chairlift.cpp:195-226 | the north-east/south-west station's supports, cable between the ends, floor, side fences and covers, and the end fence at the north-east end |
| Chairlift.NeSwEnds | src/openrct2/ride/transport/Chairlift.cpp:228-265 | at a station end the bullwheel group with its end cap replaces that end's column; elsewhere both columns stand |
| Chairlift.StationNeSw | src/openrct2/ride/transport/Chairlift.cpp:181-270 | the north-east/south-west station: its head, then its ends, with one left tunnel |
| Chairlift.SeNwHead | src/openrct2/ride/transport/Chairlift.cpp:286-317 | the south-east/north-west station's supports, cable between the ends, floor, side fences and covers, and the end fence at the north-west end |
| Chairlift.SeNwEnds | src/openrct2/ride/transport/Chairlift.cpp:319-358 | the same end-of-line rule for the south-east/north-west axis |
| Chairlift.StationSeNw | src/openrct2/ride/transport/Chairlift.cpp:272-362 | the south-east/north-west station: its head, then its ends, with a right tunnel only when the right-hand column stands |
| Chairlift.StationStrokes | src/openrct2/ride/transport/Chairlift.cpp:365-376 | odd directions paint the south-east/north-west station, even ones the north-east/south-west station |
| Chairlift.FlatStrokes | src/openrct2/ride/transport/Chairlift.cpp:378-397 | one cable sprite per axis and one tunnel at the piece's height on the side the axis faces |
| Chairlift.Up25Strokes | src/openrct2/ride/transport/Chairlift.cpp:400-434 | the slope sprite for the direction and its tunnel, eight units below or above the base |
| Chairlift.FlatToUp25Strokes | src/openrct2/ride/transport/Chairlift.cpp:442-483 | the cable and support sprites for the direction and its tunnel |
| Chairlift.Up25ToFlatStrokes | src/openrct2/ride/transport/Chairlift.cpp:496-537 | the cable and support sprites for the direction and its tunnel |
| Chairlift.LeftTurnStrokes | src/openrct2/ride/transport/Chairlift.cpp:570-623 | the corner and its two support sprites; direction 1 pushes no tunnel, direction 3 pushes both |
| Chairlift.NeSwEndsCounts | src/openrct2/ride/transport/Chairlift.cpp:228-265 | the north-east/south-west ends draw one column and one bullwheel at the first or last piece, otherwise two columns and no bullwheel |
| Chairlift.SeNwEndsCounts | src/openrct2/ride/transport/Chairlift.cpp:319-358 | the same for the south-east/north-west ends |
| Chairlift.StationNeSwCounts | src/openrct2/ride/transport/Chairlift.cpp:181-270 | the same counts for the whole north-east/south-west station piece |
| Chairlift.StationSeNwCounts | src/openrct2/ride/transport/Chairlift.cpp:272-362 | the same counts for the whole south-east/north-west station piece |
| Chairlift.StationKeepsAColumn | src/openrct2/ride/transport/Chairlift.cpp:181-376 | a station piece drops one column exactly at the end of the line and then draws the bullwheel once |
| Chairlift.StationTunnels | src/openrct2/ride/transport/Chairlift.cpp:268-376 | even directions push one left tunnel; odd ones push no left tunnel, and a right tunnel unless the right-hand column is replaced by the bullwheel |
| Chairlift.PaintSession.SetSegmentSupportHeight | src/openrct2/ride/transport/Chairlift.cpp:395 | addressed segments get the new height and slope; others keep theirs |
| Chairlift.PaintSession.SetGeneralSupportHeight | src/openrct2/ride/transport/Chairlift.cpp:396 | the general support height only rises, and takes the slope with it when it does |
| Chairlift.PaintSession.Finish | src/openrct2/ride/transport/Chairlift.cpp:395-396 | every segment is blocked and the general support height is raised to the piece's clearance |
| Chairlift.PaintSession.MetalSupport | src/openrct2/ride/transport/Chairlift.cpp:92-112 | one truss call is recorded with the segment's height before the call; its success is the support painter's answer; the helper may write its own segment but no other |
| Chairlift.PaintSession.TryTruss | src/openrct2/ride/transport/Chairlift.cpp:85-101 | the first round records one call per addressed segment at that segment's height on entry, reports whether any succeeded, and leaves unaddressed segments unchanged |
| Chairlift.PaintSession.TrussFallback | src/openrct2/ride/transport/Chairlift.cpp:103-114 | the fallback records one call per addressed segment at the general support height; afterwards each addressed segment has its height from before the round back, and unaddressed segments are unchanged |
| Chairlift.PaintSession.DrawSupports | src/openrct2/ride/transport/Chairlift.cpp:81-115 | the calls made are the support rule's events, and segments outside the mask are left as found |
| Chairlift.PaintSession.DrawStationBase | src/openrct2/ride/transport/Chairlift.cpp:195-204 | wooden supports, the cable and the floor are drawn |
| Chairlift.PaintSession.DrawSide | src/openrct2/ride/transport/Chairlift.cpp:206-212 | a fence where the fence test reports one, then the station cover of that edge |
| Chairlift.PaintSession.DrawNeSwHead | src/openrct2/ride/transport/Chairlift.cpp:195-226 | the north-east/south-west station's base, fences and covers |
| Chairlift.PaintSession.DrawNeSwEnds | src/openrct2/ride/transport/Chairlift.cpp:228-265 | the bullwheel and end caps at an end of the line, otherwise the columns |
| Chairlift.PaintSession.PaintStationNeSw | src/openrct2/ride/transport/Chairlift.cpp:181-270 | the piece is painted as specified, with one left tunnel |
| Chairlift.PaintSession.DrawSeNwHead | src/openrct2/ride/transport/Chairlift.cpp:286-317 | the south-east/north-west station's base, fences and covers |
| Chairlift.PaintSession.DrawSeNwEnds | src/openrct2/ride/transport/Chairlift.cpp:319-358 | the ends, and the right tunnel with the right-hand column |
| Chairlift.PaintSession.PaintStationSeNw | src/openrct2/ride/transport/Chairlift.cpp:272-362 | the piece is painted as specified |
| Chairlift.PaintSession.PaintStation | src/openrct2/ride/transport/Chairlift.cpp:365-376 | odd directions paint the south-east/north-west station, even ones the north-east/south-west station |
| Chairlift.PaintSession.PaintFlat | src/openrct2/ride/transport/Chairlift.cpp:378-397 | the flat piece's sprite and tunnel, then the common closing steps |
| Chairlift.PaintSession.PaintUp25 | src/openrct2/ride/transport/Chairlift.cpp:400-434 | the slope's sprite and tunnels by direction, then the closing steps |
| Chairlift.PaintSession.SupportsThenFinish | src/openrct2/ride/transport/Chairlift.cpp:625-628 | the support rule's calls for the piece's mask, then every segment blocked and the general support height raised to the clearance |
| Chairlift.PaintSession.DrawFlatToUp25Sprites | src/openrct2/ride/transport/Chairlift.cpp:442-483 | the cable and support sprites and the tunnel of each direction |
| Chairlift.PaintSession.PaintFlatToUp25 | src/openrct2/ride/transport/Chairlift.cpp:437-488 | sprites and tunnels, the centre-segment supports, then the closing steps |
| Chairlift.PaintSession.DrawUp25ToFlatSprites | src/openrct2/ride/transport/Chairlift.cpp:496-537 | the cable and support sprites and the tunnel of each direction |
| Chairlift.PaintSession.PaintUp25ToFlat | src/openrct2/ride/transport/Chairlift.cpp:491-542 | sprites and tunnels, the centre-segment supports, then the closing steps |
| Chairlift.PaintSession.DrawLeftTurnSprites | src/openrct2/ride/transport/Chairlift.cpp:570-623 | the corner sprite, its two support sprites and the tunnels of each direction |
| Chairlift.PaintSession.PaintLeftQuarterTurn | src/openrct2/ride/transport/Chairlift.cpp:566-629 | sprites and tunnels by direction, supports on the rotated edge segments, then the closing steps |
| Chairlift.PaintSession.PaintDown25 | src/openrct2/ride/transport/Chairlift.cpp:545-550 | paints the upward slope turned around |
| Chairlift.PaintSession.PaintFlatToDown25 | src/openrct2/ride/transport/Chairlift.cpp:552-557 | paints the upward-to-flat piece turned around |
| Chairlift.PaintSession.PaintDown25ToFlat | src/openrct2/ride/transport/Chairlift.cpp:559-563 | paints the flat-to-upward piece turned around |
| Chairlift.PaintSession.PaintRightQuarterTurn | src/openrct2/ride/transport/Chairlift.cpp:632-636 | paints the left quarter turn rotated by three quarters |
| Chairlift.PaintSession.Paint | src/openrct2/ride/transport/Chairlift.cpp:639-672 | any chairlift piece is painted as its painter specifies, leaving the blocked segments and the raised general support height |

## Left out

- Rendering itself is not modelled. A sprite or support draw is an event in the session's list; bounding boxes, offsets and colour flags other than the colour scheme are dropped. The entrance style is dropped too, which is why the station floor is one event.
- `metal_a_supports_paint_setup` and `wooden_a_supports_paint_setup` are foreign code. The metal support helper's success is a parameter (`accepts`) that receives the segment, the height and the segment's current height. Wooden supports and station covers are single events.
- The fence test is foreign code too. It is modelled as the set of edges on which it reports a fence.
- `map_invalidate_tile_zoom1` and the award window invalidations are not modelled as state changes. Award invalidations and news items appear as events; the scenery invalidations are dropped.
- The random generator and the news system are parameters. The random values are a sequence; the "notify" setting is a flag.
- The park data (peeps, rides, park globals) is a snapshot. Iterating `FOR_ALL_GUESTS`/`FOR_ALL_RIDES` becomes counting over sequences.
- Header constants (sprite ids, tunnel types, segment bits, element flag bits, weather values, ride-rating sentinels, money amounts) are written from the OpenRCT2 headers. Those headers are not part of this model.
- `paint_util_set_general_support_height`, `paint_util_set_segment_support_height` and `paint_util_rotate_segments` are defined outside the modelled files; `Chairlift.PaintSession.SetGeneralSupportHeight` (the general height only rises and takes the slope with it), `Chairlift.PaintSession.SetSegmentSupportHeight` and `Chairlift.RotateSegments` were written from those definitions, and their rows cite the lines that call them.
- `scenery_remove_ghost_tool_placement`, the title screen and the footpath item object are not part of this model. Only the capacities from `ObjectList.h` are used.
- Awards.AwardTable.UpdateAll: requires that the supplied random values contain one whose kind is not active whenever a draw happens, because the source's draw loop only terminates when such a value comes (`AwardProperties.DrawCanAlwaysStop` shows one byte always suffices).
- Awards.AwardTable.InstallStep: has the same precondition on the random values as `UpdateAll`.
- Scenery.UpdateAge: requires that the shelter scan does not run off the arena or meet a small-scenery element with an unloaded entry. In those cases the source reads memory it does not own; the model calls that outcome `Faulted` and excludes it.
- Scenery.VisitElement: carries the same precondition for the plant it visits.
- Scenery.UpdateTile: requires that the tile's first element exists (the source assumes `map_get_first_element_at` never fails) and that no visited plant faults as above.
- Scenery.Lookup: assumes a table's group count never exceeds its capacity, as the object loader guarantees.
- Chairlift.PaintSession.MetalSupport: the contract lets the support helper write its own support segment and no other, but does not say what it writes there; callers assume nothing about that segment after the call.
- Chairlift.PaintSession.Paint: heights are unbounded integers, and only the height given to the support helper is narrowed to 16 bits (`AsUInt16`). The 16-bit narrowing of positions is modelled only in the fuzzy lookup (`ToInt16`).
- Pushed tunnels are recorded as lists, without the fixed size of the session's tunnel arrays.
