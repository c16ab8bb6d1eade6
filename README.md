# Tile-grid mining game — Dafny model

This project models the gameplay logic of an 8-bit mining game. It does not model the rendering.

**World.** The world is a 200 × 200 grid of tiles. Each tile holds a material (Gras, Eisen, Kohle, Magnesium, Stein or Wald) and a `collected` flag.
- Generation classifies each coordinate's noise value with an ordered, first-match-wins rule list. It reads a seeded random stream only on two of the rule branches.
- A tile is walkable when it is Gras or already collected.
- Harvesting a tile sets its `collected` flag and yields a resource. Wald yields Holz; any other material yields its own name.
- Buildings sit in a dictionary keyed by coordinate.
- The light level is ambient light plus a Chebyshev-distance falloff around every lit building, clamped to 1.0.

**Player.** The player moves one grid cell at a time and only onto walkable tiles. The pixel position stays snapped to the grid. The player can mine the tile to its right. The inventory has a fixed set of keys and silently ignores unknown resources.

**Game.** The game object covers three things:
- building the selected item: an affordability check, then the deduction of its costs, then placement;
- the key dispatch of the event handler: the build menu open or closed, the item selection, a mine action, movement and quit;
- the camera, which follows the player.

## Module layout

- Modules for values and functions:
  - `Wrappers` (`wrappers.dfy`): the `Option` type.
  - `Terrain` (`terrain.dfy`): the pure parts of `world.py` as functions on a tile map. These are materials, tiles, the classification rules, and the value-level specification of generation (`Generate`). They also include `GetTile`, `IsValidPosition` and the harvest transition `Collect`.
  - `Lighting` (`lighting.dfy`): building records, placement on values (`Place`), and the light field (`Contribution`, `LightSum`, `LightLevel`).
- Modules built around a class:
  - `WorldState` (`world.dfy`): class `World`, with the tile and building dictionaries as `map` fields. Its methods have the loops and in-place updates of `world.py`, and each is proved equal to the function above that specifies it.
  - `PlayerState` (`player.dfy`): the inventory on values, and class `Player` with fields that its methods update.
  - `GameState` (`game.dfy`): costs and their deduction on values, the key dispatch as a function (`Dispatch`), and class `Game` with the camera and menu fields.

External inputs are parameters:
- The Perlin noise value of a coordinate is a function `noise: Coord -> real`.
- The output of the seeded `random.random()` is an infinite stream `rand: nat -> real`. Generation threads its current index through the loops: the index is the number of draws consumed so far.
- Events reach `HandleEvent` as values of an abstract `Event` and `Key` enum.

Two details of the code shape the model:
- `get_light_level` clamps at 1.0 after each building. `WorldState.World.GetLightLevel` proves that this equals clamping the total once, in any building order.
- `try_build_item` deducts the costs before it calls `place_building`, which does nothing on an unwalkable cell. `GameState.Game.BuildAttempted`, which `TryBuildItem` ensures, states this order: the deduction stands even when nothing is placed.

## Model

| member | source | states |
|---|---|---|
| Terrain.Classify | world.py:43-56 | each material is characterised exactly by the rule order: Kohle iff n < -0.3; Stein iff -0.3 <= n < -0.1 or n > 0.4; Wald iff 0.2 < n <= 0.35; Eisen iff 0.1 < n <= 0.15 and the draw is < 0.3; Magnesium iff 0.35 < n <= 0.4 and the draw is < 0.1; Gras in every remaining case |
| Terrain.DrawCount | world.py:51-53 | a tile consumes at most one random draw |
| Terrain.ClassifyIgnoresUnusedDraw | world.py:51-53 | when a tile consumes no draw, the random value cannot influence its material |
| Terrain.Generate | world.py:37-61 | none: definition only; the state of the nested loops before tile (x, y), as the tiles so far and the draws consumed so far; `World.GenerateWorld` and `World.GenerateColumn` are proved equal to it, and the lemmas below describe it |
| Terrain.GeneratedWorld | world.py:30-61 | none: definition only; the tile map after both loops, which `World.GenerateWorld` is proved to produce |
| Terrain.GenerateKeys | world.py:37-38 | after the loops have reached (x, y), exactly the coordinates before it in x-outer, y-inner order hold a tile |
| Terrain.GenerateUncollected | world.py:58-61 | every generated tile starts uncollected |
| Terrain.GenerateDrawBound | world.py:51-53 | the stream index before (x, y) is at most the number of tiles generated before it |
| Terrain.GenerateTileAt | world.py:37-61 | a tile, once generated, is never overwritten; it is the classification of its noise value with the draw at the stream index reached at that tile |
| Terrain.GenerateContents | world.py:30-61 | the whole generated map: while the loops are on the grid, exactly the positions before (x, y) are filled, all in bounds, uncollected and classified with the draw reached at that tile |
| Terrain.GetTile | world.py:63-65 | dictionary lookup: Some(tile) exactly for a present coordinate, None otherwise |
| Terrain.IsValidPosition | world.py:67-76 | out of bounds is never walkable; walkable implies present; an in-bounds present tile is walkable iff it is Gras or collected |
| Terrain.ResourceOf | world.py:84-87 | the resource is Holz iff the material is Wald, otherwise the material's name |
| Terrain.ResourceOfInjective | world.py:84-87 | different materials yield different resources |
| Terrain.Collect | world.py:78-88 | a resource is yielded iff the tile is present, uncollected and not Gras; it is ResourceOf the material and the tile becomes collected; otherwise nothing changes; materials never change, collected never reverts, other coordinates are untouched, the key set is kept |
| Terrain.CollectTwice | world.py:80-81 | a second harvest of the same tile yields None and changes nothing |
| Terrain.CollectNoOp | world.py:80-88 | out of bounds, Gras or already collected: None and no change |
| Terrain.CollectKeepsWalkable | world.py:67-82 | harvesting never makes a walkable position unwalkable, and a successful in-bounds harvest makes the harvested tile walkable |
| Lighting.NewBuilding | world.py:93-96 | the record keeps the type; the light range is 4 for Lagerfeuer and 0 for every other type |
| Lighting.Place | world.py:90-96 | on a walkable cell the building is added or overwrites the earlier one; on any other cell the dictionary is unchanged; other entries are kept |
| Lighting.PlaceRejectsBlockedTile | world.py:92 | an uncollected non-Gras tile never receives a building |
| Lighting.Chebyshev | world.py:104 | the distance is the larger of the two coordinate differences |
| Lighting.Contribution | world.py:103-107 | a building adds between 0 and 0.7; only a lit building strictly inside its radius adds anything; on its own cell it adds the full 0.7 |
| Lighting.ContributionDecreases | world.py:107 | inside the radius the falloff strictly decreases with distance |
| Lighting.LightSum | world.py:102-108 | the sum of the falloffs of the given buildings is never negative |
| Lighting.LightLevel | world.py:98-110 | the light level always lies between 0.3 and 1.0 |
| Lighting.LightSumRemove | world.py:102 | the sum is independent of iteration order: any building can be taken out first |
| Lighting.LightSumZero | world.py:102-105 | buildings that contribute nothing leave the sum at zero |
| Lighting.OnlyAmbientWhenNothingInRange | world.py:100-110 | with no lit building in range the level is exactly 0.3 |
| Lighting.BuildingAddsFalloff | world.py:105-108 | a lit building at distance d <= r adds (1 - d/r) * 0.7 to the total before the clamp |
| Lighting.SingleCampfire | world.py:98-110 | one campfire at (10, 10): level 1.0 on it, 0.65 two cells away, 0.3 at its radius |
| WorldState.World.constructor | world.py:6-28 | spawn at (200 // 2) * tile size on both axes, no buildings, and the generated tile map covering exactly the grid |
| WorldState.World.GenerateWorld | world.py:30-61 | the nested loops produce exactly the map of the generation specification, with a tile at every in-bounds coordinate and nowhere else |
| WorldState.World.GenerateColumn | world.py:38-61 | the inner loop turns the state before column x into the state after it, stream index included |
| WorldState.World.ClassifyTile | world.py:43-56 | the imperative rule chain gives the material of the classification specification and advances the stream exactly by the tile's draw count |
| WorldState.World.CollectMaterial | world.py:78-88 | the in-place harvest leaves the tiles and returns the resource of the value-level harvest, and keeps the grid invariant |
| WorldState.World.PlaceBuilding | world.py:90-96 | the building dictionary becomes that of the value-level placement |
| WorldState.World.GetLightLevel | world.py:98-110 | the per-building clamped accumulation, in any order, equals the clamped total and lies in [0.3, 1.0] |
| PlayerState.InitialInventory | player.py:12-17 | the inventory keys are exactly Eisen, Kohle, Magnesium, Holz, all at 0 |
| PlayerState.AddResource | player.py:52-55 | a known resource goes up by exactly 1, other counters and the key set are kept, an unknown name changes nothing |
| PlayerState.AddResourceNeverDecreases | player.py:52-55 | adding never lowers a counter and keeps counters non-negative |
| PlayerState.HarvestedResourceKnown | player.py:12-17 | a harvest's resource has a counter iff the material is neither Stein nor Gras |
| PlayerState.Player.constructor | player.py:4-17 | pixel position as given, grid position floor-divided by the tile size, the initial inventory |
| PlayerState.Player.Move | player.py:25-39 | a zero step changes nothing; the position moves iff the target is walkable, then grid = target and pixels = grid * tile size; otherwise no field changes; snapping is preserved |
| PlayerState.Player.AddToInventory | player.py:52-55 | the inventory becomes the value-level AddResource of the old one |
| PlayerState.Player.MineRight | player.py:57-66 | exactly (grid x + 1, grid y) is harvested; the result is true iff a resource was yielded; that resource is added; no counter decreases |
| PlayerState.SpawnIsSnapped | player.py:4-9 | a player created at the spawn point is on cell (100, 100) and snapped |
| GameState.DefaultBuildItems | main.py:40-42 | none: definition only; the one build item, a Lagerfeuer costing 4 Stein and 4 Kohle |
| GameState.Get | main.py:160 | none: definition only; `inventory.get(material, 0)` |
| GameState.Affordable | main.py:158-162 | none: definition only; every cost amount is at most the inventory's count for it, a missing resource counting as 0 |
| GameState.Deducted | main.py:166-167 | deduction keeps the inventory's key set |
| GameState.AffordableIsHeld | main.py:159-167 | affordable positive costs only name resources that have a counter, so the deduction cannot raise KeyError |
| GameState.DefaultBuildItemsWellFormed | main.py:40-42 | the game's one cost dictionary has positive amounts and distinct materials |
| GameState.DeductedKeepsUnmentioned | main.py:166-167 | a counter that no cost names keeps its value |
| GameState.DeductedAt | main.py:166-167 | the counter of each cost loses exactly that cost's amount |
| GameState.DeductedSubtractsOnce | main.py:166-167 | each cost is subtracted exactly once from its own counter; every other counter is kept |
| GameState.DeductionKeepsNonNegative | main.py:158-167 | deducting affordable costs never drives a counter below zero |
| GameState.CampfireNeverAffordable | main.py:40-42 | with the inventory's fixed keys the campfire can never be afforded, because Stein has no counter |
| GameState.Dispatch | main.py:118-148 | QUIT or ESC stops; B toggles the menu; with the menu open only 1 selects and RETURN builds; with it closed SPACE mines, W steps by (0,-1), S by (0,1), A by (-1,0) and D by (1,0); every step is one cell |
| GameState.MenuModes | main.py:128-146 | with the menu open only stop, toggle, select, build or nothing can happen; with it closed select and build cannot |
| GameState.Game.constructor | main.py:30-42 | a generated world, the player snapped at its spawn cell (100, 100) with the initial inventory of four counters at 0, camera at 0, menu closed, item 0 selected, the one campfire item |
| GameState.Game.UpdateCamera | main.py:44-47 | the camera is the player's pixel position minus half the screen size |
| GameState.Game.CanAfford | main.py:157-162 | the early-exit loop answers true iff every cost is covered by inventory.get(material, 0) |
| GameState.Game.DeductCosts | main.py:166-167 | the in-place deduction loop leaves the value-level deduction of the costs |
| GameState.Game.TryBuildItem | main.py:150-174 | an out-of-range selection or an unaffordable item changes nothing; otherwise costs are deducted, a campfire placement is attempted at the player's cell, and the menu is closed, with the deduction kept even if placement does nothing; with the game's own build item nothing ever changes |
| GameState.Game.HandleEvent | main.py:119-146 | each event has exactly the effect its dispatched action names, and the handler reports false iff it was QUIT or ESC |
| GameState.Game.HandleEvents | main.py:118-148 | the handler reports true iff no event of the frame is QUIT or ESC, and the game invariant is kept |

## Left out

- Drawing of the world, the player, the UI and the build menu: this is pygame rendering, colour tinting and text layout.
- `noise.pnoise2` and the internals of `random.seed(42)` / `random.random()`. These are foreign library calls, modelled as the supplied inputs `noise` and `rand`.
- The pygame event polling, the `run` loop, the clock and frame rate, display setup and `sys.exit`. These are I/O and frame timing. `HandleEvents` takes the frame's events as a sequence.
- Floating-point rounding in `get_light_level` and in the classification thresholds. Light values and noise values are exact reals.
- The first, identical definition of `mine_right` at player.py:41-50. Python replaces it with the one at player.py:57-66.
- The unused `speed` and `color` fields of the player, the `colors` table of the world, and the `FPS` constant. None of them takes part in the modelled logic.
- The insertion order of the building dictionary. `GetLightLevel` picks any remaining building, and its result is proved independent of the order.
- GameState.Game.Valid demands positive cost amounts and distinct cost materials, as in the one build item of the game. A cost with a non-positive amount on a missing key would reach `inventory[material]` and raise KeyError in the source, and that path is not modelled.
- GameState.Game.Valid keeps `selectedBuildItem` non-negative, since key 1 only ever selects 0. Python's negative list indexing is not modelled.
- GameState.Game.HandleEvents states only the stop condition and the invariant. The per-event effects are stated by `HandleEvent`, which it calls in order.
