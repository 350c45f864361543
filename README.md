# tankRally world streaming, obstacle population and settings, in Dafny

This project models the three bookkeeping engines of the tankRally endless-driving game and proves what they keep.

- **Terrain streaming** (`TerrainManager`). The manager keeps a map from tile centre to tile and a current tile. When the tank crosses half a tile, an eight-way rule picks the next current tile. The 3x3 block around the new tile is then made present and active, and every tile farther than two tile sizes is switched off. Tiles are never removed.
- **Obstacle population** (`ObstaclesManager`).
  - The 3x3 block of screen-sized regions around an axis point is filled. Each region is filled once and recorded.
  - Filling draws from a cumulative weight table (Tree 10, Bush 30, Puddle 10, Stone 50) until at least 50 objects are counted for the region. One draw can spawn up to four objects, so a region that needed any new object ends with 50 to 53 counted. Objects on the region's edge are counted as spawned but not by the strict-inside count of a later pass.
  - Objects are switched on and off by a visibility window.
  - The axis point follows the tank by whole display sizes.
  - A timer adds extra bushes at the candidate farthest from the bushes nearby.
- **Settings and persistence** (`DataManager`).
  - Settings are read from an optional config, with a fallback per field.
  - The tank velocity is clamped to [0.01, 9].
  - The weight table always holds the four categories.
  - The pose and map data are written to and read back from the PlayerPrefs key-value store.

Modules:

- `World`: points, rectangles, the scenery categories, and the tank's transform as the class `Anchor`.
- `Randomness`: `UnityEngine.Random`, as a cursor over an arbitrary stream.
- `Persistence`: PlayerPrefs, as a map.
- `Data`: DataManager.
- `Terrain`: TerrainManager.
- `Obstacles`: ObstaclesManager.

Each manager is a class whose methods update its fields as the C# methods do. The pure decisions are functions, and their properties are proved as lemmas. Most stateful methods' ensures tie the new state to those functions. `Update`, `PlaceObstacles` and the random spawners instead state what every outcome of the random stream has in common: which regions are filled, that earlier objects are kept, where new objects lie, and when a bush may be added.

In these places the code does something other than what it evidently intends, and the model follows the code:

- **A draw spawns more than one category.** One draw is meant to spawn the first category whose cumulative weight exceeds it. The code's loop has no `break`, so that category and every later one in table order are spawned: 1 to 4 objects per draw (`Obstacles.InitialDraw`).
- **The bush neighbourhood filter is lopsided.** The filter tests `z < axis.z + displaySizeX/2` twice and has no lower bound on z. It also uses the display width for z. The model keeps the filter as written (`Obstacles.InBushNeighborhood`).
- **No obstacle persistence.** Obstacle placements are never saved or loaded. `ObstaclesManager` uses its own constants, not the DataManager settings.
- **Tile fallback to the origin.** `CalcultateNextAxisPoint` returns the world origin when the offset crosses the boundary on one axis and sits exactly on half a tile on the other (`Terrain.OriginFallback`).
- **Axis bounce at the exact boundary.** When the tank is exactly half a display height north of the axis point, and within half a width on x, the first rule moves the axis north. The second rule then sees the old position exactly half a height south and moves it back. So `ShiftAxisNorth` promises a northward step only for a strictly larger offset, and likewise east and on the diagonals.
- **More than one step per frame.** The eight rules run one after another, each on the point the previous rules left. A tank on the half-size lines can therefore move the axis point by more than one step in a single frame: from (0, 0) with a display size of 1 and the tank at (0.5, 1.5), the point ends at (1, 2) (`Obstacles.ShiftAxisMultiStep`). The model keeps this.

## Model

| member | source | states |
|---|---|---|
| Data.AddPossibility | tankRally/Assets/Scripts/DataManager.cs:80-83 | `Dictionary.Add` needs a key not yet present; the new entry is appended after the unchanged earlier entries, and the key list grows by exactly that key |
| Data.WeightTable | tankRally/Assets/Scripts/DataManager.cs:80-83 | the four Adds yield the keys Tree, Bush, Puddle, Stone in that order, each with its given weight |
| Data.ClampVelocity | tankRally/Assets/Scripts/DataManager.cs:59-62 | the result lies in [0.01, 9]; a velocity already in range is kept; a lower one becomes 0.01 and a higher one 9 |
| Data.LoadedSettings | tankRally/Assets/Scripts/DataManager.cs:41-106 | the velocity is always in range; the table always holds exactly the four categories; a missing config gives every fallback; a missing Possibilities object gives the fallback weights; with a config, every field is its parsed value or its own fallback, the velocity clamped, and a present Possibilities object gives Tree, Bush, Puddle, Stone in that order, each with its parsed weight or fallback |
| Data.FallbackWeightsSumTo100 | tankRally/Assets/Scripts/DataManager.cs:20-23 | the fallback weights sum to 100 |
| Data.KeysDistinct | tankRally/Assets/Scripts/DataManager.cs:7-10 | the PlayerPrefs keys derived from the four key names are pairwise distinct |
| Data.TankPoseRoundTrip | tankRally/Assets/Scripts/DataManager.cs:120-141 | a saved rotation or position reads back as written, and each save leaves the other pose values unchanged |
| Data.TerrainOffsetRoundTrip | tankRally/Assets/Scripts/DataManager.cs:178-189 | a saved terrain offset reads back as written; the rotation argument is ignored; the tank pose is unchanged |
| Data.MapInfoRoundTrip | tankRally/Assets/Scripts/DataManager.cs:166-174 | saved map data reads back as written and touches no pose value |
| Data.UnsetKeysReadDefaults | tankRally/Assets/Scripts/DataManager.cs:120-183 | on an empty store the rotation, position and offset read 0, and the map data reads "" |
| Data.DataManager.constructor | tankRally/Assets/Scripts/DataManager.cs:41-106 | the fields hold exactly `LoadedSettings(config)` |
| Data.DataManager.SaveTankRotation | tankRally/Assets/Scripts/DataManager.cs:125-128 | the store gains the rotation key; `GetTankRotation` returns the saved value |
| Data.DataManager.SaveTankPosition | tankRally/Assets/Scripts/DataManager.cs:137-141 | the store gains both position keys; `GetTankPosition` returns the saved position |
| Data.DataManager.SaveTerrainOffset | tankRally/Assets/Scripts/DataManager.cs:185-189 | only the two offset keys are written; `GetTerrainOffset` returns the offset; the tank rotation and position read as before |
| Data.DataManager.SaveMapInfo | tankRally/Assets/Scripts/DataManager.cs:166-169 | `LoadMapInfo` returns the saved data |
| Data.DataManagerHolder.constructor | tankRally/Assets/Scripts/DataManager.cs:32 | the static instance starts unset |
| Data.DataManagerHolder.GetInstance | tankRally/Assets/Scripts/DataManager.cs:34-39 | the first call creates a fresh manager over the loaded settings; every later call returns that same instance |
| Randomness.RandomSource.Range | tankRally/Assets/Scripts/ObstaclesManager.cs:188-189 | a float draw lies in the closed range and consumes one value of the stream |
| Randomness.RandomSource.RangeInt | tankRally/Assets/Scripts/ObstaclesManager.cs:150 | an integer draw lies in the half-open range and consumes one value of the stream |
| Terrain.Neighbors | tankRally/Assets/Scripts/TerrainManager.cs:109-129 | 8 points, each one tile away on a grid axis or diagonal and different from the centre, pairwise distinct |
| Terrain.NeighborsComplete | tankRally/Assets/Scripts/TerrainManager.cs:109-129 | a point is in the list exactly when it is a grid neighbour of the centre |
| Terrain.NeighborhoodWithinReach | tankRally/Assets/Scripts/TerrainManager.cs:66-69 | every tile of the 3x3 block is within 20 * sqrt(2) of its centre (squared distance at most 800) |
| Terrain.NextAxisPoint | tankRally/Assets/Scripts/TerrainManager.cs:131-168 | the next tile is a neighbour of the current one or the origin; it is the origin when no rule applies |
| Terrain.NextAxisPointSteps | tankRally/Assets/Scripts/TerrainManager.cs:131-168 | off the exact half-tile lines, a crossing offset moves each axis independently by its sign: -1, 0 or +1 tiles |
| Terrain.SingleAxisCrossing | tankRally/Assets/Scripts/TerrainManager.cs:134-149 | crossing on one axis only moves one tile north, south, east or west along that axis |
| Terrain.OriginFallback | tankRally/Assets/Scripts/TerrainManager.cs:131-168 | for a crossing offset, no rule applies exactly when an axis sits on half a tile, and then the result is the origin |
| Terrain.HideFarTiles | tankRally/Assets/Scripts/TerrainManager.cs:88-98 | the keys are kept; tiles beyond the 40 cutoff are off; nearer tiles are unchanged |
| Terrain.NeighborhoodOnlyIsStreamed | tankRally/Assets/Scripts/TerrainManager.cs:39-46 | a map holding exactly the active 3x3 block is streamed around its centre |
| Terrain.HidingKeepsNeighborhood | tankRally/Assets/Scripts/TerrainManager.cs:66-79 | switching off the far tiles after showing the block leaves the block on and the map streamed |
| Terrain.TerrainManager.constructor | tankRally/Assets/Scripts/TerrainManager.cs:25-28 | the tile map starts empty |
| Terrain.TerrainManager.AddTile | tankRally/Assets/Scripts/TerrainManager.cs:100-107 | the new position, never present before, maps to an active tile; nothing else changes |
| Terrain.TerrainManager.Start | tankRally/Assets/Scripts/TerrainManager.cs:30-49 | the saved pose is restored to the anchor; the current tile is the origin; the map holds exactly the active block around it |
| Terrain.TerrainManager.SpawnStartTiles | tankRally/Assets/Scripts/TerrainManager.cs:39-46 | the map holds exactly the 3x3 block around the current tile, all active, with each key added once |
| Terrain.TerrainManager.OnDestroy | tankRally/Assets/Scripts/TerrainManager.cs:51-56 | the store afterwards is the old one with the offset, rotation and position keys written in that order, so it yields the manager's offset, rotation and tank position |
| Terrain.TerrainManager.CalculateInvisibleTiles | tankRally/Assets/Scripts/TerrainManager.cs:88-98 | the new map is `HideFarTiles` of the old one around the current tile |
| Terrain.TerrainManager.ShowNeighborhood | tankRally/Assets/Scripts/TerrainManager.cs:67-78 | the keys become the old keys plus the block; every block tile is active; tiles outside the block are unchanged |
| Terrain.TerrainManager.Update | tankRally/Assets/Scripts/TerrainManager.cs:58-81 | streaming is preserved; without a crossing neither the tile nor the map changes; with one the tile moves by `NextAxisPoint`, the block is added and nothing is removed; near tiles outside the block keep their state |
| Obstacles.RegionCentres | tankRally/Assets/Scripts/ObstaclesManager.cs:133-142 | nine centres, the axis point first |
| Obstacles.RegionCentresAround | tankRally/Assets/Scripts/ObstaclesManager.cs:133-142 | for a positive display size the centres are exactly the 3x3 block of regions around the axis, each listed once |
| Obstacles.CountInRect | tankRally/Assets/Scripts/ObstaclesManager.cs:167-184 | the count of objects strictly inside the rectangle is at most the number of objects |
| Obstacles.CountInRectExtremes | tankRally/Assets/Scripts/ObstaclesManager.cs:172-181 | the count is 0 exactly when no object is strictly inside, and is full exactly when all are |
| Obstacles.CountIgnoresFlags | tankRally/Assets/Scripts/ObstaclesManager.cs:174-177 | switching active flags does not change the count |
| Obstacles.ActivateInRect | tankRally/Assets/Scripts/ObstaclesManager.cs:172-182 | the same objects in the same order; an object is on exactly when it was on or is strictly inside |
| Obstacles.Culled | tankRally/Assets/Scripts/ObstaclesManager.cs:272-285 | the same objects in the same order; an object is on exactly when it is strictly inside the window |
| Obstacles.DrawnFrom | tankRally/Assets/Scripts/ObstaclesManager.cs:151-160 | a draw spawns at most one object per table entry |
| Obstacles.WalkStep | tankRally/Assets/Scripts/ObstaclesManager.cs:152-160 | one step of the weight walk keeps "spawned so far + rest of the walk = whole draw" |
| Obstacles.DrawnAllOnceExceeded | tankRally/Assets/Scripts/ObstaclesManager.cs:152-160 | with non-negative weights, once the running total exceeds the draw every remaining category is spawned |
| Obstacles.DrawnIsSuffix | tankRally/Assets/Scripts/ObstaclesManager.cs:152-160 | a draw spawns exactly the categories from the first one whose running total exceeds it to the end of the table |
| Obstacles.DrawSelects | tankRally/Assets/Scripts/ObstaclesManager.cs:152-160 | a draw below the total weight selects a real entry |
| Obstacles.InitialDraw | tankRally/Assets/Scripts/ObstaclesManager.cs:150-160 | with the table of Init, a draw in [0, 100) spawns the suffix starting at boundary 10/40/50/100, between 1 and 4 objects |
| Obstacles.Nearest | tankRally/Assets/Scripts/ObstaclesManager.cs:226-232 | the nearest distance is float.MaxValue exactly when there are no bushes, and never float.MinValue |
| Obstacles.NearestIsMinimum | tankRally/Assets/Scripts/ObstaclesManager.cs:226-232 | the nearest distance is a lower bound of the distances to all bushes and is attained by one of them |
| Obstacles.NearbyBushes | tankRally/Assets/Scripts/ObstaclesManager.cs:203-212 | a position is kept exactly when it is a bush position passing the neighbourhood filter as written |
| Obstacles.CollectNearbyBushes | tankRally/Assets/Scripts/ObstaclesManager.cs:202-212 | the filter loop computes `NearbyBushes` |
| Obstacles.NearestBushDistance | tankRally/Assets/Scripts/ObstaclesManager.cs:226-232 | the inner minimum loop computes `Nearest` |
| Obstacles.FarthestCandidate | tankRally/Assets/Scripts/ObstaclesManager.cs:221-239 | the chosen candidate's nearest-bush distance is the maximum, and the lowest index among ties (strict `>`); no candidates leave index 0 and float.MinValue; with no bushes candidate 0 wins |
| Obstacles.BushIndices | tankRally/Assets/Scripts/ObstaclesManager.cs:195-197 | the bush list refers only to spawned objects |
| Obstacles.BushIndicesExact | tankRally/Assets/Scripts/ObstaclesManager.cs:195-197 | the bush list names only bushes, each once and in spawn order, and names every bush |
| Obstacles.FlagsKeepBushIndices | tankRally/Assets/Scripts/ObstaclesManager.cs:272-285 | switching flags leaves the bush list as it was |
| Obstacles.AppendBushIndices | tankRally/Assets/Scripts/ObstaclesManager.cs:195-197 | spawning an object adds its index to the bush list exactly when it is a bush |
| Obstacles.ObstaclesManager.constructor | tankRally/Assets/Scripts/ObstaclesManager.cs:45-53 | empty object and bush lists, no filled region, an empty weight table, not initialised |
| Obstacles.ObstaclesManager.Init | tankRally/Assets/Scripts/ObstaclesManager.cs:60-77 | the table is Tree 10, Bush 30, Puddle 10, Stone 50; the axis point is the tank's position; all nine regions around it are filled; the timer starts now; the manager is initialised |
| Obstacles.ObstaclesManager.SetUp | tankRally/Assets/Scripts/ObstaclesManager.cs:62-73 | the axis point is the tank's position; the table and the display size are set |
| Obstacles.ObstaclesManager.AddInitialPossibilities | tankRally/Assets/Scripts/ObstaclesManager.cs:65-68 | the table becomes Tree 10, Bush 30, Puddle 10, Stone 50, in that order |
| Obstacles.ObstaclesManager.PlaceObstacles | tankRally/Assets/Scripts/ObstaclesManager.cs:131-165 | all nine centres end up filled; only centres not filled before are added; earlier objects keep their kind, position and rotation; their flags are only switched on, and only for objects strictly inside the window around `axis`; with every centre already filled nothing changes |
| Obstacles.ObstaclesManager.FillTile | tankRally/Assets/Scripts/ObstaclesManager.cs:145-163 | the region is filled to at least 50 counted objects (at most 53 when anything was spawned), objects strictly inside it are switched on, new objects lie in it, its centre is recorded, and earlier objects are kept |
| Obstacles.ObstaclesManager.FillRegion | tankRally/Assets/Scripts/ObstaclesManager.cs:147-161 | the loop ends with at least 50 objects counted; the count is the objects strictly inside plus those spawned; objects are only switched on or appended; new objects lie in the region; when anything was spawned the count ends at most at 53 |
| Obstacles.ObstaclesManager.DrawOnce | tankRally/Assets/Scripts/ObstaclesManager.cs:150-160 | one pass of the fill loop appends between one and four objects, all in the region |
| Obstacles.ObstaclesManager.SpawnDrawn | tankRally/Assets/Scripts/ObstaclesManager.cs:151-160 | the objects spawned by one draw have exactly the categories of `Drawn`, in table order, and lie in the region |
| Obstacles.ObstaclesManager.GetNearestMapObjects | tankRally/Assets/Scripts/ObstaclesManager.cs:167-184 | returns the number of objects strictly inside the region and switches exactly those on; nothing is added or removed |
| Obstacles.ObstaclesManager.SpawnNewMapObject | tankRally/Assets/Scripts/ObstaclesManager.cs:186-198 | appends one active object of the kind, in the region's closed rectangle, with rotation in [0, 360); the bush list grows by it exactly when it is a bush |
| Obstacles.ObstaclesManager.SpawnAdditionalBush | tankRally/Assets/Scripts/ObstaclesManager.cs:200-248 | 10 candidates in the region; a bush is spawned exactly when some candidate's nearest nearby bush is farther than 1; it is placed at a candidate whose distance is maximal and goes on both lists; with no nearby bush one is always spawned; the chosen candidate is the lowest index among the maximal ones (each earlier candidate is strictly worse), so with no nearby bush it is candidate 0 |
| Obstacles.ObstaclesManager.SwapObjectsByDistance | tankRally/Assets/Scripts/ObstaclesManager.cs:267-286 | the objects become `Culled` by the window of 1.5 display sizes around the axis point |
| Obstacles.RegionInsideWindow | tankRally/Assets/Scripts/ObstaclesManager.cs:131-141 | a point strictly inside one of the nine regions around the axis point is strictly inside the window of 1.5 display sizes around it |
| Obstacles.FillRaisesOnlyInWindow | tankRally/Assets/Scripts/ObstaclesManager.cs:145-163 | filling a region of the block switches flags on only, and only for objects strictly inside the window |
| Obstacles.CullThenRaise | tankRally/Assets/Scripts/ObstaclesManager.cs:83-85 | a cull followed by switching flags on only inside the same window leaves each object on exactly when it is inside |
| Obstacles.CulledPrefixKept | tankRally/Assets/Scripts/ObstaclesManager.cs:124-128 | appending objects after the cull keeps the culled flags of the earlier objects |
| Obstacles.ObstaclesManager.FollowAnchor | tankRally/Assets/Scripts/ObstaclesManager.cs:87-122 | the axis point stays on the lattice of whole display sizes from its start and becomes `ShiftAxis` of the old point and the tank |
| Obstacles.ObstaclesManager.EdgeRules | tankRally/Assets/Scripts/ObstaclesManager.cs:87-102 | the four edge rules, in source order, keep the lattice and give `EdgeShift` |
| Obstacles.ObstaclesManager.EdgeStep | tankRally/Assets/Scripts/ObstaclesManager.cs:87-102 | one edge rule moves the axis point exactly as `EdgeRule` says and keeps the lattice |
| Obstacles.ObstaclesManager.DiagonalRules | tankRally/Assets/Scripts/ObstaclesManager.cs:103-122 | the four diagonal rules, in source order, keep the lattice and give `DiagonalShift` |
| Obstacles.ObstaclesManager.DiagonalStep | tankRally/Assets/Scripts/ObstaclesManager.cs:103-122 | one diagonal rule moves the axis point exactly as `DiagonalRule` says and keeps the lattice |
| Obstacles.ShiftAxisStays | tankRally/Assets/Scripts/ObstaclesManager.cs:87-122 | with the tank strictly within half a display size of the axis point on both axes, no rule fires |
| Obstacles.ShiftAxisNorth | tankRally/Assets/Scripts/ObstaclesManager.cs:87-90 | tank strictly past the north line and strictly within the east-west band: exactly one height north |
| Obstacles.ShiftAxisSouth | tankRally/Assets/Scripts/ObstaclesManager.cs:91-94 | tank on or past the south line and strictly within the band: exactly one height south |
| Obstacles.ShiftAxisEast | tankRally/Assets/Scripts/ObstaclesManager.cs:95-98 | tank strictly past the east line and strictly within the north-south band: exactly one width east |
| Obstacles.ShiftAxisWest | tankRally/Assets/Scripts/ObstaclesManager.cs:99-102 | tank on or past the west line and strictly within the band: exactly one width west |
| Obstacles.ShiftAxisSouthWest | tankRally/Assets/Scripts/ObstaclesManager.cs:103-107 | tank strictly past the south and west lines: exactly one diagonal step south-west |
| Obstacles.ShiftAxisSouthEast | tankRally/Assets/Scripts/ObstaclesManager.cs:108-112 | tank strictly past the south and east lines: exactly one diagonal step south-east |
| Obstacles.ShiftAxisNorthEast | tankRally/Assets/Scripts/ObstaclesManager.cs:113-117 | tank strictly past the north and east lines: exactly one diagonal step north-east |
| Obstacles.ShiftAxisNorthWest | tankRally/Assets/Scripts/ObstaclesManager.cs:118-122 | tank strictly past the north and west lines: exactly one diagonal step north-west |
| Obstacles.ScaledIsProduct | tankRally/Assets/Scripts/ObstaclesManager.cs:87-122 | the lattice offset after n steps of one display size is n display sizes, so the axis point always sits at whole multiples of the display size from its start |
| Obstacles.ObstaclesManager.StepX | tankRally/Assets/Scripts/ObstaclesManager.cs:95-102 | the axis point moves by exactly one display width, east or west, and stays on the lattice |
| Obstacles.ObstaclesManager.StepZ | tankRally/Assets/Scripts/ObstaclesManager.cs:87-94 | the axis point moves by exactly one display height, north or south, and stays on the lattice |
| Obstacles.ObstaclesManager.Update | tankRally/Assets/Scripts/ObstaclesManager.cs:79-129 | nothing changes before Init; afterwards the regions around the old axis point are all filled, each earlier object is on exactly when it is strictly inside the window around the old axis point and the bush timer leaves it as it was, no filled region is forgotten, earlier objects are kept, the axis point becomes `ShiftAxis` of the old point and the tank (staying put while the tank is near it), and the timer restarts exactly when more than 5 s have passed; after the placement, the timer adds at most one object, a bush, and adds nothing within 5 s; after more than 5 s it makes exactly the attempt `BushAttempt` describes near the tank: a bush is added exactly when some of the 10 candidates is far enough from the nearby bushes, at the lowest-index farthest candidate, and always when no bush is nearby |
| Obstacles.ShiftAxisMultiStep | tankRally/Assets/Scripts/ObstaclesManager.cs:87-122 | the rules apply in turn to the point already moved, so one frame can move the axis point two heights north and one width east |
| Obstacles.ObstaclesManager.UpdateInitialized | tankRally/Assets/Scripts/ObstaclesManager.cs:83-128 | the same effects as `Update` once initialised, including the cull of earlier objects and the bush attempt after more than 5 s; `Update` adds the axis point staying put, from `ShiftAxisStays` |
| Obstacles.ObstaclesManager.RefreshObstacles | tankRally/Assets/Scripts/ObstaclesManager.cs:83-85 | after culling and placing, the nine regions around the axis point are filled; filled regions are only added, and only around the axis point; earlier objects are kept, and each is on exactly when it is strictly inside the window around the axis point (`CulledPrefix`), whatever the placement then switched on |
| Obstacles.ObstaclesManager.FollowAndSpawn | tankRally/Assets/Scripts/ObstaclesManager.cs:87-128 | the axis point becomes `ShiftAxis` of the old point and the tank; the bush timer's effects as on `BushTimer`, including the unchanged earlier objects and the bush attempt after more than 5 s |
| Obstacles.ObstaclesManager.BushTimer | tankRally/Assets/Scripts/ObstaclesManager.cs:124-128 | the last spawn time becomes `now` exactly when more than 5 s have passed since it, and is kept otherwise; within 5 s neither list nor the random stream changes; otherwise at most one object is appended, it is a bush, and earlier objects are kept exactly, flags included; after more than 5 s the attempt happens: the list changes exactly as `BushAttempt` says, with a bush added exactly when some candidate is far enough from the nearby bushes |

## Left out

- Unity object plumbing is left out: `Instantiate`, parenting, transforms, `Quaternion` and `SetActive` on game objects. Objects are records (kind, position, rotation, active flag) in sequences, and tiles are active flags in a map.
- `GetMapObjectByEnum` (ObstaclesManager.cs:250-265) only instantiates the prefab of a category, so a spawned object is a record of that kind.
- `Random.seed` and `UnityEngine.Random` become an arbitrary stream of raw values, clamped into the requested range. `Time.time` is the parameter `now` of `Init` and `Update`.
- The display size comes from `Camera.ScreenToWorldPoint` and `Screen`. It is passed to `Init` as positive parameters.
- Floating point is left out. Coordinates are exact reals, `Equals` on `Vector3`, as `List.Contains` and `Dictionary.ContainsKey` use it, is exact equality, and `magnitude` comparisons are made on squared distances. That keeps the ordering and the thresholds 40 and 1.
- Euler-angle wrapping of the tank's heading is left out. The heading is a plain real.
- `JSONObject` and its `GetField` are library code that is not part of this model. The parsed config is a record of optional fields, and a missing or unparsable field is `None`.
- Dictionary enumeration order is an explicit sequence in insertion order: Tree, Bush, Puddle, Stone.
- Event wiring is left out: `OnTankPositionLoaded`, `Awake`/`Start` ordering, and `ObstaclesManager.OnDestroy` unsubscribing. `Init` is called after `Start` has run.
- `ObstaclesManager.Init` also copies the tank's position and rotation into its own transform. Only the transform's children are placed, and the model places them by world position, so this is not modelled.
- `TerrainManager.GetCurrentTilePos` is a plain getter of a field the model exposes.
- The `DataManager` getters `GetTankVelocity`, `GetTankAngularVelocity`, `GetMaxVisibleObjects`, `GetBushSpawnPeriod`, `GetBushMinimalDistance`, `GetPossibilities`, `GetTankRotation`, `GetTankPosition`, `GetTerrainOffset` and `LoadMapInfo` (DataManager.cs:110-183) are modelled as plain reads with no contract of their own. What the first six return is stated on the constructor through `LoadedSettings`. What the last four return is stated by the save methods and the round-trip lemmas `TankPoseRoundTrip`, `TerrainOffsetRoundTrip`, `MapInfoRoundTrip` and `UnsetKeysReadDefaults`.
- Tank.cs (keyboard input and movement) is not part of this model. The tank is an `Anchor` whose position changes between frames.
- `_filledPrefabTiles` is a list in the source and a set here. It is only tested with `Contains`, and only added to after a failed `Contains`, so it never holds duplicates.
- `_spawnedBushes` holds the same objects as `_spawnedPrefabs`. It is modelled as the indices of those objects, so a flag change through one list shows through the other.
- Obstacles.ObstaclesManager.PlaceObstacles: states that earlier objects keep their kind, position and rotation and that new objects are appended, not how many objects each region receives. That count is stated on `FillRegion`.
- Obstacles.ObstaclesManager.Update: states the effects above, not the full new object list, which depends on the random stream.
- Obstacles.ObstaclesManager.FillRegion: proves that the fill loop terminates using the table of `Init`, which is the only table `ObstaclesManager` uses. A general weight table that sums below 100 could loop forever.
