# Cosmic Drift: sectors, salvage, ship and level bookkeeping in Dafny

This project models the core of the space-salvage game Cosmic Drift.

- **The sector generator.** An N x N grid of 1000-unit sectors. Each sector
  has a type drawn from a seed made of its grid coordinates. Its content is
  generated once, the first time the player comes within two sectors of it.
  The content is resources and obstacles, drawn from a seeded random stream.
  The generator then shows and hides that content as the player moves, spins
  the active obstacles each frame, and tears everything down at the end.
- **A resource.** Its texture and tint by type, the salvage-range test
  against the ship, and collection into the cargo hold or the fuel tank.
- **The ship's accounting.** Fuel, cargo, the collected-resource counters,
  the upgrade table and purchases, and the fuel burnt by thrust.
- **The game scene's level logic.**
  - the objectives of each level and the completion check;
  - the once-only level-complete and game-over screens;
  - fuel lost in collisions;
  - the victory check and the out-of-fuel game-over check.

The model is split into modules that follow the program:

- `Rng` (`rng.dfy`): The random library. An oracle gives, for a seed and a call index, the 53-bit numerator of the fraction `frac()` returns. `between`, `frac`, `realInRange` and `weightedPick` each take one fraction and map it by a formula assumed for Phaser's `RandomDataGenerator`, which is not among the program's sources (see "Left out"). Under that assumption `weightedPick` reads index `floor(frac^2 * (n - 1) + 0.5)` and ignores the weights passed after the options.
- `Trig` (`trig.dfy`): `cos`/`sin` as values in [-1, 1].
- `Content` (`content.dfy`): What a sector contains, as pure functions of the stream, and the bounds every generator promises.
- `Layout` (`layout.dfy`): The grid in creation order, the window around the player, and the content of all sectors generated so far.
- `Sectors` (`sectors.dfy`): The `SectorGenerator` and `Obstacle` classes. The generator's methods are proved against `Content` and `Layout`.
- `Resources` (`resources.dfy`): The `Resource` class.
- `Ships` (`ships.dfy`): The `Ship` class.
- `Game` (`game.dfy`): The `GameScene` class's level bookkeeping.

The generator keeps a ghost log of the grid positions generated so far. Its
invariant `Valid` ties three things to that log:

- the sector records: a record is generated exactly when its position is logged,
  and every logged position, each logged once, is the position of a record;
- the specification of every created entity: it equals the content of the
  logged sectors, in order;
- the entities themselves: each was created once.

## Model

| member | source | states |
|---|---|---|
| `Rng.Between` | src/components/SectorGenerator.js:183 | `between(lo, hi)`, computed as lo plus the whole part of `frac()` times hi - lo + 1, yields an integer in [lo, hi]. |
| `Rng.BetweenReaches` | src/components/SectorGenerator.js:183 | Every integer v of a range [lo, hi] no wider than 2^53 is the result of a named draw: (v - lo) / (hi - lo + 1) rounded up to the 53-bit resolution. |
| `Rng.Frac` | src/components/SectorGenerator.js:246 | `frac()` yields a real in [0, 1). |
| `Rng.RealInRange` | src/components/SectorGenerator.js:216 | `realInRange(lo, hi)` yields a real in [lo, hi]. |
| `Rng.PickIn` | src/components/SectorGenerator.js:59-64 | Whatever the draw, `weightedPick` returns one of the listed options. |
| `Rng.SkewedIndex` | src/components/SectorGenerator.js:59-64 | The index `weightedPick` reads, `floor(f^2 * (n - 1) + 0.5)` for a fraction f in [0, 1), lies in [0, n). |
| `Trig.OffsetX` | src/components/SectorGenerator.js:333 | The x offset `cos(angle) * distance` lies within the distance either way. |
| `Trig.OffsetY` | src/components/SectorGenerator.js:334 | The y offset `sin(angle) * distance` lies within the distance either way. |
| `Content.SeedsDistinct` | src/components/SectorGenerator.js:162 | The seed `gridX * 1000 + gridY` differs between any two positions whose rows lie in [0, 1000). |
| `Content.SectorTypeKnown` | src/components/SectorGenerator.js:53-67 | Every sector's type is one of the four names: empty, asteroid field, debris field, abandoned station. |
| `Content.TypesReachable` | src/components/SectorGenerator.js:53-67 | Each of the four types is picked by some fraction: 0 gives empty, 1/2 asteroid field, 3/4 debris field and 15/16 abandoned station. |
| `Content.SharedDraw` | src/components/SectorGenerator.js:56-64 | The type pick and the content's first `between` read the same fraction. So an empty pick draws a count of at most 1, an asteroid-field pick 14-17, a debris-field pick 13-15, and a station pick an x offset of at least 166. |
| `Content.StepFits` | src/components/SectorGenerator.js:185-198 | One iteration of any generator loop places exactly one obstacle or none, as its piece dictates. It places at most one resource, exactly one for the resource-only loops. Positions, amounts and types are within the piece's bounds. Draws come from the same seed only. |
| `Content.RepeatFits` | src/components/SectorGenerator.js:205-260 | k iterations place k obstacles (or none) and at most k resources (exactly k for the resource-only loops), all within the piece's bounds. |
| `Content.ScatterFits` | src/components/SectorGenerator.js:265-267 | A loop whose count is drawn from [lo, hi] places between lo and hi obstacles (or none). It never places more resources than obstacles, and everything lies within bounds. |
| `Content.ScatterBare` | src/components/SectorGenerator.js:326-371 | The station's resource ring places no obstacle, and its debris ring places no resource. |
| `Content.FieldInside` | src/components/SectorGenerator.js:186-187 | Everything an empty, asteroid or debris sector generates lies inside the sector's box. |
| `Content.StationCentre` | src/components/SectorGenerator.js:309-310 | The station centre lies within 200 units of the sector centre in each axis. |
| `Content.RingsFacts` | src/components/SectorGenerator.js:326-371 | Given a station centre at least 300 units inside its sector, the station and its rings make 6-9 obstacles, the first being the station itself at that centre. The rings also hold 8-12 resources of 3-5 units, all inside the sector. |
| `Content.StationFacts` | src/components/SectorGenerator.js:307-372 | A station sector has 6-9 obstacles, the first of them the station inside the sector, and 8-12 resources of 3-5 units inside the sector. |
| `Content.StationShape` | src/components/SectorGenerator.js:307-372 | The station sector meets the shape its type promises. |
| `Content.ContentShape` | src/components/SectorGenerator.js:160-179 | Each type generates what its generator promises. Empty: 0-3 resources of 1-2 units, no obstacles. Asteroid field: 10-20 asteroids, at most as many resources, 1-3 units each. Debris field: 8-15 pieces, at most as many resources, 2-4 units each. Station: as `StationFacts`. An unknown type generates nothing. Every resource lies inside the sector. |
| `Content.SectorCounts` | src/components/SectorGenerator.js:160-183 | Because generation re-sows the seed the type was picked with, a sector's content depends on its type beyond the type's own ranges. An empty sector holds at most one resource, an asteroid field 14-17 asteroids and a debris field 13-15 pieces. A station stands 666-700 units into its sector horizontally. |
| `Content.RingDebrisCanLeaveSector` | src/components/SectorGenerator.js:350-356 | The fraction just below 1 picks the station type and sets the station 200 units right of centre. With that fraction as the distance draw and a turn whose cosine is 1, a ring debris piece lands at x = 1050 in its sector's frame, outside the sector that generated it. |
| `Layout.CellsAt` | src/components/SectorGenerator.js:40-48 | One record is created per position. |
| `Layout.GridCovers` | src/components/SectorGenerator.js:34-35 | Every position of [0, n)^2 is created, at index x*n + y. |
| `Layout.GridShape` | src/components/SectorGenerator.js:32-51 | The grid has n*n records, each the fresh cell of its own coordinates within [0, n)^2, and no position appears twice. |
| `Layout.Partition` | src/components/SectorGenerator.js:71-72 | `floor(p / 1000)` is exactly the sector whose half-open box contains p. |
| `Layout.OneSectorPerPoint` | src/components/SectorGenerator.js:151-158 | A point is in the box of grid position (gx, gy) if and only if that position is its sector index in both axes. |
| `Layout.Chebyshev` | src/components/SectorGenerator.js:78-79 | The window's distance is the larger of the two axis distances. |
| `Layout.SquareBounds` | src/components/SectorGenerator.js:81 | In an n x n world, the bounds test admits exactly the positions [0, n)^2. |
| `Layout.LoggedAppend` | src/components/SectorGenerator.js:91-95 | Generating one more sector appends exactly its content to everything generated so far. |
| `Layout.LoggedConcat` | src/components/SectorGenerator.js:91-95 | Generating the sectors of one log after those of another appends their content, in order, to the first log's content. |
| `Layout.LoggedAmounts` | src/components/SectorGenerator.js:194 | Every resource ever generated carries 1 to 5 units. |
| `Sectors.WrapDegrees` | src/components/SectorGenerator.js:240 | A stored angle always lies in [-180, 180). |
| `Sectors.WrapInRange` | src/components/SectorGenerator.js:278 | An angle already in range is stored as given. |
| `Sectors.WrapTurn` | src/components/SectorGenerator.js:240 | Adding a full turn leaves the stored angle unchanged. |
| `Sectors.Obstacle.constructor` | src/components/SectorGenerator.js:232-243 | An obstacle gets the position, texture, scale and drift rate it was generated with. Its facing angle is wrapped and it starts active and visible. |
| `Sectors.Obstacle.Update` | src/components/SectorGenerator.js:239-241 | One frame advances the angle by the drift rate, wrapped. |
| `Sectors.Obstacle.Destroy` | src/components/SectorGenerator.js:398 | A destroyed obstacle is inactive and invisible. |
| `Sectors.GeneratedSectorsValid` | src/components/SectorGenerator.js:91-95 | Marking an ungenerated record generated while logging its position keeps the records valid. |
| `Sectors.FlaggedSectorsValid` | src/components/SectorGenerator.js:97-99 | Changing only a record's active flag keeps the records valid, as long as an active record is a generated one. |
| `Sectors.GeneratedContentValid` | src/components/SectorGenerator.js:91-95 | Appending a well-placed sector's content while logging its position keeps the entities equal to the logged content. |
| `Sectors.BoxesDisjoint` | src/components/SectorGenerator.js:151-158 | No point lies in the boxes of two different valid records. |
| `Sectors.SwitchesExclusive` | src/components/SectorGenerator.js:104-111 | From valid records, no point lies both in the box of a record switched on and in that of a record switched off. |
| `Sectors.NewlyLogged` | src/components/SectorGenerator.js:91-95 | Between two valid states whose records sit at the same positions, the positions logged meanwhile are exactly those of the records generated meanwhile. |
| `Sectors.ContentAppended` | src/components/SectorGenerator.js:91-95 | Between two valid states, the entities gained are, in order, exactly the content of the positions logged meanwhile. |
| `Sectors.FreshGridValid` | src/components/SectorGenerator.js:32-51 | A fresh grid with nothing generated satisfies the record invariant. |
| `Sectors.SectorGenerator.constructor` | src/components/SectorGenerator.js:5-16 | No records and no entities; the stream is sown with the clock value passed in. |
| `Sectors.SectorGenerator.NextBetween` | src/components/SectorGenerator.js:183 | Returns `between` of the current draw and advances the stream by one. |
| `Sectors.SectorGenerator.NextFrac` | src/components/SectorGenerator.js:246 | Returns `frac` of the current draw and advances the stream by one. |
| `Sectors.SectorGenerator.NextRealInRange` | src/components/SectorGenerator.js:216 | Returns `realInRange` of the current draw and advances the stream by one. |
| `Sectors.SectorGenerator.NextPick` | src/components/SectorGenerator.js:59-64 | Returns the pick of the current draw and advances the stream by one. |
| `Sectors.SectorGenerator.GetSectorType` | src/components/SectorGenerator.js:53-67 | The type depends on the coordinates alone: the stream is re-sown with the sector's seed and the result is one of the four types. |
| `Sectors.SectorGenerator.GenerateColumn` | src/components/SectorGenerator.js:35-49 | The inner loop appends the fresh records of column x, rows 0 to n-1, in order. |
| `Sectors.SectorGenerator.GenerateInitialSectors` | src/components/SectorGenerator.js:32-51 | The records appended are the n x n grid in x-major order. The stream is left at the last sector's seed. |
| `Sectors.SectorGenerator.InitGame` | src/components/SectorGenerator.js:18-30 | The world bounds are worldSize sectors square, and the grid is appended. A generator that had no records is valid afterwards. |
| `Sectors.SectorGenerator.AddResource` | src/components/SectorGenerator.js:197 | The resource is pushed at the end of the list, and the list stays free of duplicates. |
| `Sectors.SectorGenerator.AddObstacle` | src/components/SectorGenerator.js:243 | The obstacle is pushed at the end of the list, and the list stays free of duplicates. |
| `Sectors.SectorGenerator.PlaceNext` | src/components/SectorGenerator.js:205-260 | One more loop iteration extends the entities from k to k + 1 iterations of the loop's specification. |
| `Sectors.SectorGenerator.PlaceEmptyPickup` | src/components/SectorGenerator.js:186-197 | Appends exactly the resource that one step of the empty-sector specification describes. |
| `Sectors.SectorGenerator.PlaceAsteroid` | src/components/SectorGenerator.js:206-259 | Appends exactly the asteroid, and the chance resource, that one asteroid step describes. |
| `Sectors.SectorGenerator.NewAsteroid` | src/components/SectorGenerator.js:206-238 | The new asteroid has the position, size texture, scale and drift the draws give. The chance returned is its size's. |
| `Sectors.SectorGenerator.PlaceDebris` | src/components/SectorGenerator.js:268-303 | Appends exactly the debris piece, and the chance resource, that one debris step describes. |
| `Sectors.SectorGenerator.NewDebris` | src/components/SectorGenerator.js:268-282 | The new piece has the position, variant texture, scale and drift the draws give. The facing-angle draw is consumed. |
| `Sectors.SectorGenerator.PlaceNearbyPickup` | src/components/SectorGenerator.js:246-259 | Rolls `frac`. When the roll is under the chance, appends one resource within the reach of the piece; otherwise it appends nothing. |
| `Sectors.SectorGenerator.PlaceRingPickup` | src/components/SectorGenerator.js:330-344 | Appends exactly the ring resource one ring step describes. |
| `Sectors.SectorGenerator.PlaceRingDebris` | src/components/SectorGenerator.js:351-370 | Appends exactly the ring debris piece one ring step describes. |
| `Sectors.SectorGenerator.PlaceScatter` | src/components/SectorGenerator.js:183-185 | Draws the count, then appends exactly that many iterations of the loop's specification. |
| `Sectors.SectorGenerator.GenerateSectorContent` | src/components/SectorGenerator.js:160-179 | Re-sows with the sector's seed and appends exactly the content of its type. An unknown type appends nothing. |
| `Sectors.SectorGenerator.GenerateEmptySector` | src/components/SectorGenerator.js:181-199 | Appends exactly the empty-sector content. |
| `Sectors.SectorGenerator.GenerateAsteroidField` | src/components/SectorGenerator.js:201-261 | Appends exactly the asteroid-field content. |
| `Sectors.SectorGenerator.GenerateDebrisField` | src/components/SectorGenerator.js:263-305 | Appends exactly the debris-field content. |
| `Sectors.SectorGenerator.GenerateAbandonedStation` | src/components/SectorGenerator.js:307-372 | Appends exactly the station content: the station, its resource ring and its debris ring. |
| `Sectors.SectorGenerator.PlaceStation` | src/components/SectorGenerator.js:312-371 | The station obstacle first, then the ring resources, then the ring debris. |
| `Sectors.SectorGenerator.ActivateSector` | src/components/SectorGenerator.js:114-131 | Every resource and obstacle inside the sector's box becomes active and visible. Everything else is untouched. |
| `Sectors.SectorGenerator.DeactivateSector` | src/components/SectorGenerator.js:133-149 | Every resource and obstacle inside the sector's box becomes inactive and invisible, without being destroyed. Everything else is untouched. |
| `Sectors.SectorGenerator.ShowResources` | src/components/SectorGenerator.js:118-123 | Exactly the resources inside the box get the new flags. |
| `Sectors.SectorGenerator.ShowObstacles` | src/components/SectorGenerator.js:125-130 | Exactly the obstacles inside the box get the new flags. |
| `Sectors.SectorGenerator.EnsureGenerated` | src/components/SectorGenerator.js:91-95 | A sector's content is generated at most once: only the generated flag of that record changes, and the log gains that record's position exactly when it was not generated before. With the invariant, the entity lists gain exactly that sector's content. |
| `Sectors.SectorGenerator.VisitCell` | src/components/SectorGenerator.js:80-100 | A position outside the world is skipped. Otherwise its record becomes generated and active, and no other record changes. Existing entities in the box of a record switched on are shown; every other existing entity keeps its flags. |
| `Sectors.SectorGenerator.Enter` | src/components/SectorGenerator.js:91-100 | The found record is generated at most once and ends active. The log gains its position exactly when it was not generated before. Only entities in its box are shown, and only if it was inactive. |
| `Sectors.SectorGenerator.Activate` | src/components/SectorGenerator.js:97-100 | A generated record that is not active becomes active and the entities in its box are shown. Nothing else changes. |
| `Sectors.SectorGenerator.VisitColumn` | src/components/SectorGenerator.js:79-101 | After one column of the window, the positions gathered are those of that column inside the world, and exactly their records are entered. Existing entities in the box of a record switched on are shown; the rest keep their flags. |
| `Sectors.SectorGenerator.VisitWindow` | src/components/SectorGenerator.js:78-102 | `shouldBeActive` is exactly the positions within two sectors (Chebyshev distance) that lie in the world. Exactly those records become generated and active. Existing entities in the box of a record switched on are shown; the rest keep their flags. |
| `Sectors.SectorGenerator.DeactivateOthers` | src/components/SectorGenerator.js:104-111 | Every record whose position is not in `shouldBeActive` ends inactive; every other flag is kept. Entities in the box of a record switched off are hidden; the rest keep their flags. |
| `Sectors.SectorGenerator.DeactivateUnless` | src/components/SectorGenerator.js:106-110 | An active record outside `shouldBeActive` is switched off and the entities in its box hidden. Otherwise nothing changes. |
| `Sectors.SectorGenerator.UpdateActiveSectors` | src/components/SectorGenerator.js:69-112 | Afterwards a record is active if and only if it is within two sectors of the player's sector and in the world. It is generated if it was before or is now near. No content is generated twice, the entity lists are only appended to, and the invariant is kept. The positions logged during the pass are exactly those of the records newly generated, and the entity lists gain, in log order, exactly the content of those sectors. Over the whole pass, an existing entity in the box of a record switched on is shown, one in the box of a record switched off is hidden, and no entity is both. Every other existing entity keeps its flags, and no entity is destroyed. |
| `Sectors.SectorGenerator.Update` | src/components/SectorGenerator.js:374-381 | Every active obstacle spins by its drift rate; inactive ones keep their angle. |
| `Sectors.SectorGenerator.Cleanup` | src/components/SectorGenerator.js:395-404 | Every resource and obstacle is destroyed, and the lists and records are emptied. |
| `Sectors.SectorGenerator.IsInSector` | src/components/SectorGenerator.js:151-158 | For a record at its grid position, a point is in its half-open box exactly when the point's sector indices are the record's grid coordinates. |
| `Sectors.SectorGenerator.FindSector` | src/components/SectorGenerator.js:89 | Returns the first record at (x, y), or -1 if and only if there is none. |
| `Resources.TextureKnown` | src/components/Resource.js:9-26 | The four known types are drawn with their own texture; any other type uses metal's. |
| `Resources.TintFor` | src/components/Resource.js:48-65 | The tint is a 24-bit colour. |
| `Resources.TintMarksUnknown` | src/components/Resource.js:63-64 | The tint is white if and only if the type is not one of the four. |
| `Resources.TintsDistinct` | src/components/Resource.js:50-62 | Different known types get different tints. |
| `Resources.RangeIsDistance` | src/components/Resource.js:85-91 | The squared-distance test agrees with comparing the Euclidean distance to the salvage range. |
| `Resources.Resource.constructor` | src/components/Resource.js:4-83 | A new resource keeps its position, type and amount, gets its type's texture and tint, and starts active and visible. |
| `Resources.Resource.IsInRange` | src/components/Resource.js:85-101 | Reports whether the ship is within salvage range. The indicator is at 0.2 exactly when it is, and 0 otherwise. |
| `Resources.Resource.Destroy` | src/components/Resource.js:145-158 | A destroyed resource is inactive and invisible. |
| `Resources.Resource.Collect` | src/components/Resource.js:103-143 | Out of range, or of an unknown type: nothing changes. Cargo types are collected if and only if they fit, and update the cargo and the counters. Fuel adds ten per unit, up to the tank, and counts only if the tank took some. A collected resource is destroyed. The "artifacts" counter never moves. |
| `Ships.Cost` | src/components/Ship.js:129-134 | Every upgrade costs a positive amount of metal and of crystal. |
| `Ships.ArtifactMisfiled` | src/components/Ship.js:114 | Collecting artifacts never moves the "artifacts" counter. It creates a NaN "artifact" counter instead. |
| `Ships.Burn` | src/components/Ship.js:75 | A frame of thrust burns more than 0 and at most 0.1 fuel. |
| `Ships.CargoFitsRaised` | src/components/Ship.js:166-169 | Raising the cargo level, with the maximum following it, keeps a cargo that fitted before. |
| `Ships.Ship.Capacity` | src/components/Ship.js:113 | The collection limit is 50 times the cargo level squared, and at least 50. |
| `Ships.Ship.constructor` | src/components/Ship.js:15-35 | Full 100-unit tank, empty hold, limits 50 and 100, zeroed counters and every level at 1. |
| `Ships.Ship.CollectResource` | src/components/Ship.js:111-120 | Takes the amount aboard if and only if it fits the capacity, adding to the cargo and the type's counter. Otherwise nothing changes. |
| `Ships.Ship.Refuel` | src/components/Ship.js:122-126 | The tank becomes the smaller of the maximum and the old fuel plus the amount. The result is the amount actually added; it is positive if and only if the amount is positive and the tank was not full. |
| `Ships.Ship.CanAffordUpgrade` | src/components/Ship.js:128-138 | 15 metal and 20 crystal afford every upgrade, the largest price in each column. Under 5 of either affords none, the smallest price in each column. |
| `Ships.Ship.PurchaseUpgrade` | src/components/Ship.js:140-179 | Succeeds if and only if affordable. On success it pays the price, raises the level by 0.25 and refreshes the field that level drives. On failure nothing changes. The invariant is kept and the upgrade total rises by 0.25 per purchase. |
| `Ships.Ship.UpgradeTotal` | src/components/Ship.js:181-188 | The number of levels bought is never negative. |
| `Ships.Ship.Update` | src/components/Ship.js:67-77 | Thrusting with fuel left burns 0.1 divided by the efficiency level, never below empty. Otherwise the fuel is unchanged. |
| `Game.ObjectivesStartFresh` | src/scenes/GameScene.js:34-62 | Every goal a level sets starts at zero with a positive requirement, and every level asks for metal. |
| `Game.FreePlayDefault` | src/scenes/GameScene.js:53-60 | Every level other than 1 and 2 gets the free-play objectives. |
| `Game.ArtifactIgnored` | src/scenes/GameScene.js:535-558 | The artifact goal never decides completion. |
| `Game.NotCompleteAtStart` | src/scenes/GameScene.js:535-558 | No level is complete the moment it is set up. |
| `Game.LevelObjectives` | src/scenes/GameScene.js:23-31 | Only a start with level 1 or 2 gets that level's objectives. A start without a level, with level 0 or with any other level gets free play's. |
| `Game.FuelAfterHit` | src/scenes/GameScene.js:228-238 | A hit at speed up to 50 costs nothing. A harder one costs at most 5 and never empties the tank below zero. |
| `Game.HitCost` | src/scenes/GameScene.js:236-237 | With enough fuel, a hit costs exactly speed / 40, capped at 5. |
| `Game.CollectionKeepsVictory` | src/scenes/GameScene.js:241-247 | Collecting any resource type leaves the victory check as it was. |
| `Game.GameScene.constructor` | src/scenes/GameScene.js:7-14 | Starts at level 1, with no objectives and no end-of-game flag set. |
| `Game.GameScene.Init` | src/scenes/GameScene.js:16-32 | Clears the end-of-game flags, selects the level passed in (or free play) and sets up its objectives. |
| `Game.GameScene.SetupLevelObjectives` | src/scenes/GameScene.js:34-62 | The objectives become the level's table entry. |
| `Game.GameScene.CheckLevelObjectives` | src/scenes/GameScene.js:535-558 | The level completes if and only if metal, crystal, fuel and rescue pods, each where present, have reached their requirement. |
| `Game.GameScene.LevelComplete` | src/scenes/GameScene.js:560-566 | The level-complete screen goes up once: a second call changes nothing. |
| `Game.GameScene.GameOver` | src/scenes/GameScene.js:320-326 | The game-over screen goes up once: a second call changes nothing. |
| `Game.GameScene.Victory` | src/scenes/GameScene.js:249-251 | Every call pauses and asks for the victory screen again. |
| `Game.GameScene.HandleCollision` | src/scenes/GameScene.js:223-239 | The ship's fuel becomes the fuel left after a hit at that speed, and the ship stays valid. |
| `Game.GameScene.CheckVictoryCondition` | src/scenes/GameScene.js:241-247 | Victory fires if and only if the "artifacts" counter is a number of at least 10. |
| `Game.GameScene.CheckOutOfFuel` | src/scenes/GameScene.js:174-177 | Game over is set if and only if the tank is empty and the ship is slower than 1, or it was set before. The game is paused, and exactly one game-over screen is added, when that condition first sets game over. Otherwise pause and the screens stay as they were. |

## Left out

- Rendering, sound, particles, tweens, camera shake and the screens' layout are left out. They are the engine's, and nothing in the core reads them back.
- The random generator's internal state update is left out. The oracle stands for the sequence of 53-bit fractions a sown seed produces, and is otherwise unconstrained.
- The four maps from a fraction to a result are an assumption about Phaser's `RandomDataGenerator`: `frac` as the fraction, `between` as `lo + floor(f * (hi - lo + 1))`, `realInRange` as `lo + f * (hi - lo)`, and `weightedPick` as index `floor(f^2 * (n - 1) + 0.5)`, ignoring the weights. Phaser is not among the program's sources and no version of it is pinned, so these formulas are not shown by the code. The numbers in `Content.SharedDraw`, `Content.SectorCounts`, `Content.TypesReachable`, `Content.RingDebrisCanLeaveSector` and `Rng.SkewedIndex` depend on them. The coupling between the sector type and the first count, which re-sowing the same seed causes, holds only under this assumption.
- Concrete cosine and sine are left out. They appear only as values in [-1, 1], taken at the drawn fraction of a turn rather than at the angle in radians.
- Floating point is not modelled. Positions and amounts are exact reals and unbounded integers, so rounding in `Math.floor`, in the division by the sector size, and in the wrap of the angle setter (degrees to radians and back) is not captured.
- The physics world and collider are left out, as are velocity, drag and the ship's position updates. Impact speed and the ship's speed are parameters of `HandleCollision` and `CheckOutOfFuel`, and the ship's position is two plain fields.
- The resource's floating tween is left out, so its position is the one it was created at. Its scale by amount and the pulsing alpha are also left out.
- Ship textures chosen by the upgrade total are left out, as is the low-fuel warning with its clock and sound.
- The level-complete, game-over and victory scenes are left out. They are reduced to the scene's `paused` flag and ghost counters of how often each was put up.
- `activeSectors` is left out: it is created and cleared but never read.
- The getters `getResources`, `getObstacles` and `getWorldBounds` are plain field reads of the generator.
- Sector keys are compared as coordinate pairs instead of `"x,y"` strings. The two agree because the string form is injective on integers.
- The mission intro overlay is left out.
- The `collectResources` scene handler is left out. It refers to a `resourceType` variable that is never bound, so its objective update cannot run as written. The per-resource `Collect` it calls is modelled.
- `Game.GameScene.Init`: a non-numeric or NaN `data.level` is not modelled. The level is an optional integer, and 0 selects free play as a falsy level does.
- Objective descriptions are an enumeration with their texts attached (`BriefText`), not free strings.
- `Sectors.SectorGenerator.UpdateActiveSectors`: the flags of entities created during the pass are not stated. They start active and visible. An entity inside its sector's box is then set again by that sector's activation. Ring debris can land outside its sector's box (`Content.RingDebrisCanLeaveSector`). Such debris keeps its creation flags until a sector whose box contains it is switched on or off, possibly later in the same pass, and keeps them for good if no sector's box contains it.
- `Sectors.SectorGenerator.ActivateSector` makes visible again a resource that was collected earlier, as the program does. The model does not exclude destroyed entities from showing.
- `Sectors.SectorGenerator.NewDebris`, `PlaceDebris` and `PlaceRingDebris`: the facing angle drawn for a debris piece is consumed from the stream but is not part of the content specification.
- The loops of the four sector generators are one shared loop, `PlaceScatter`, over a piece kind. Each iteration is the same sequence of library calls as the program's loop body.
- Victory cannot fire through collection. Collected artifacts are filed under the `"artifact"` counter, while the check reads `"artifacts"` (`Ships.ArtifactMisfiled`, `Game.CollectionKeepsVictory`). The model keeps this behaviour rather than correcting it.
