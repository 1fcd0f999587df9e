# gogame world engine in Dafny

This project models the simulation core of *gogame*, a Go side-scroller built
on ebiten, and proves properties of that model. The core covers:

- **The world.** Terrain is streamed into a 30 x 120 ring of tiles, addressed
  by world column modulo 120. The generation cursor works ahead of the
  camera, biome by biome, through an 11-slot ring of biomes.
- **The entity physics step.** Each velocity component is clamped to
  [-12, 12]. A horizontal pass and then a vertical pass each probe the
  leading edge. The move is committed, or that axis stops.
- **The camera.** It follows the players' centroid and only ever scrolls
  right. Its viewport test is inclusive, and a `y` of -1 means "test x only".
- **The zombie AI.** A zombie acquires the nearest player it can hear and
  keeps that target for good. It walks toward the target and hits for 25 at
  most once per 1000 ms cooldown.
- **The world's frame.** In order:
  1. The camera and the level move on.
  2. Each player is flagged once off screen and reads its controller;
     bullets it fires join the world.
  3. The objects, zombies and entities are swept with swap-with-last
     `Remove`.
  4. Each kept entity falls and takes its physics step.
  5. The corner-overlap scan fills the collision lists.
- **Smaller pieces.**
  - The controller's button masks and dead zone.
  - The early JoyCon bit test.
  - The animation frame counter.
  - The lobby's character cycling and ready toggle.
  - The earlier, simpler object model.
  - The vector and min/max helpers.

One Dafny module models each Go file:

| module | Go file |
|---|---|
| `Common` | `src/common/common.go` |
| `Input` | `src/input/input.go` |
| `JoyCon` | `spike/joycon.go` |
| `Graphics` | `src/graphics/animation.go` |
| `Tiles` | the tile type of `src/gameplay/gameobject.go`, and the addressing and collision query of `src/gameplay/world.go` |
| `Camera` | `src/gameplay/camera.go` |
| `Entities` | `src/gameplay/gameobject.go` |
| `Zombies` | `src/gameplay/zombies.go` |
| `World` | `src/gameplay/world.go` |
| `Menu` | `src/gameplay/menu.go` |
| `GameState` | `src/gameplay/gamestate.go` |
| `GameObject` | `src/gameobject/gameobject.go` |

### How the Go structure is mapped

**Objects whose fields the Go code updates are classes.** The camera, the
level, the world, entities, players, zombie AIs, controllers, lobby panels and
animations are all classes, and their methods carry `modifies` clauses.

**Each method is proved against a function of its inputs.**

- `Entity.Update` is proved equal to `Step`, and its two passes to
  `HorizontalPass` and `VerticalPass`.
- The generation loop is proved equal to `Run` over `ColumnStep`.
- The level's tile writes are proved equal to `WriteCol`.
- Each removal loop is proved equal to `Sweep`.
- The pair scan is proved to produce the `Partners` relation.

**Where the Go packages form a cycle, references become parameters.**

- The Go world, camera and entities point back at each other.
- Here, an entity receives the tile grid and the camera.
- The camera receives the players' boxes and the level's window.
- The zombie AI receives the world's players.
- `Player.Update` returns the bullet it fires, and the world adds it.

**Randomness, noise and the clock are inputs.**

- Clock readings are parameters (`now`).
- The Perlin noise is an oracle that gives a column's ground offset.
- Every `rand` draw is an oracle keyed by the world column being generated.
  No column is generated twice, so any sequence of draws can be expressed
  this way.

**Numbers are unbounded.** `float32` and `float64` values are reals, and
unsigned counters are `nat`. Go's float-to-integer conversion is written out
as `Tiles.Trunc`.

### Behaviour of the code that the model keeps

- **Removal loops can keep a flagged element.**
  - `World.Update` ranges forward over the slice it removes from. A slot
    refilled by the swap is never looked at again, and an index past the
    shrunk length is a no-op.
  - `Common.Sweep` follows the code, and `Common.SweepCanKeepFlagged` shows a
    flagged element that survives.
  - `Common.SweepKeepsUnflagged` proves that no unflagged element is lost.
  - `Common.SweepKeepsDistinct` proves that a sweep never introduces a
    repeat.
- **No leftward exception.** An entity kept on screen is held inside the
  camera on both sides.
- **Noise sample.** The noise is sampled at the ring index, `arrX`, not at the
  world column. The product is truncated with `uint32`, not rounded.
- **Overlap test.**
  - The pair scan uses a corner test, and its bottom-left corner needs
    strict inequality.
  - `World.OverlapsMissesCrossing` shows two crossing boxes that the test
    does not relate.
- **Projectiles.** The frame calls `Projectile.Update`. `Projectile` is
  defined outside the modelled files; see "Left out".
- **Player start.** `NewWorld` sets a player's y to `PLAYERWORLDSTARTX`, not
  `PLAYERWORLDSTARTY`. The model does the same.

## Model

| member | source | states |
|---|---|---|
| Common.RemovedSlots | src/common/common.go:47-55 | An index past the end leaves the slice as it is. Otherwise the length drops by one, the removed slot holds the former last element, and every other slot below the new length is unchanged. |
| Common.RemovedLastTruncates | src/common/common.go:52-53 | Removing the last index is a plain truncation. |
| Common.RemovedMultiset | src/common/common.go:52-54 | Removal takes out exactly one occurrence of the removed element, so the contents stay a permutation minus that element. |
| Common.Remove | src/common/common.go:47-55 | `Remove` on a slice window of a backing array: the new length and the slice contents are `Removed` of the old, and the backing array changes only at `index`. |
| Common.Sweep | src/gameplay/world.go:92-97 | A forward `range` that calls `Remove` at every flagged index removes at most one element per flag. |
| Common.SweepKeepsUnflagged | src/gameplay/world.go:92-97 | A sweep never loses an element whose flag is clear. It adds nothing: the result is a sub-multiset of the slice. |
| Common.SweepWithin | src/gameplay/world.go:92-97 | Everything a sweep keeps was in the slice. |
| Common.SweepKeepsDistinct | src/gameplay/world.go:114-122 | A sweep of a list without repeats leaves none. |
| Common.SweepCanKeepFlagged | src/gameplay/world.go:92-97 | A flagged element can survive: sweeping `[1, 2, 3]` with the first and last flagged gives `[3, 2]`. |
| Common.VectorLaws | src/common/common.go:65-79 | `Sub(v, v)` and `Add(v, Neg(v))` are zero, `Neg` is an involution, `Add` and `Dot` commute, and `Sub` undoes `Add`. |
| Common.NormalIsPerpendicular | src/common/common.go:77-83 | The normal is perpendicular to the vector and as long as it. Taking the normal twice negates the vector. |
| Common.MinMaxProjection | src/common/common.go:90-112 | The result satisfies min <= max. Both ends are corner projections, and every corner projects inside the interval. |
| Common.MaxPoint | src/common/common.go:128-136 | Always one of its arguments; the largest when the three are distinct. |
| Common.MinPoint | src/common/common.go:152-160 | Always one of its arguments; the smallest when the three are distinct. |
| Common.MaxPointTieCounterexample | src/common/common.go:128-136 | With a tie at the top, `MaxPoint` returns its third argument even when that argument is the smallest. `MinPoint` does likewise with a tie at the bottom. |
| Common.TwoMaxPoints | src/common/common.go:114-126 | As written: when p1, p2 or p4 is the strict maximum, that value comes first and the `MaxPoint` of the rest second. The p3 branch returns `(p1, MaxPoint(p1, p2, p4))`. With no strict maximum (a tie at the top), `(p4, MaxPoint(p1, p2, p3))` is returned. The first component is never p3. |
| Common.TwoMinPoints | src/common/common.go:138-150 | As written: when p1, p2 or p4 is the strict minimum, that value comes first. The p3 branch returns p1 first, and with no strict minimum (a tie at the bottom) p4 comes first. The second component is always `MaxPoint` of the other three. |
| Common.TwoPointsCounterexamples | src/common/common.go:114-150 | `TwoMaxPoints(1, 2, 3, 0)` is `(1, 2)` and `TwoMinPoints(0, 1, 2, 3)` is `(0, 3)`. |
| Common.Max3 | src/common/common.go:128-136 | Corrected selector: one of its arguments and at least each of them. |
| Common.Min3 | src/common/common.go:152-160 | Corrected selector: one of its arguments and at most each of them. |
| Common.TwoLargest | src/common/common.go:114-126 | Corrected: the largest of four values, then the largest of the other three. |
| Common.TwoSmallest | src/common/common.go:138-150 | Corrected: the smallest of four values, then the smallest of the other three. |
| Input.MaskLookup | src/input/input.go:29-41 | Every button has an entry in the mask map, and the entry is that button's pair of masks. |
| Input.MasksAreSingleBits | src/input/input.go:29-41 | Each button's two masks are distinct single bits. |
| Input.MasksAreDisjoint | src/input/input.go:29-41 | Different buttons share no bit, so all 22 masks are distinct. |
| Input.OneBitPressesOneButton | src/input/input.go:125-130 | A word that holds one of b's bits reports b pressed and no other button. |
| Input.NothingPressed | src/input/input.go:129 | With no bit set, no button reports pressed. |
| Input.Deadzone | src/input/input.go:110-115 | The result is the reading or 0. It is nonzero only with magnitude in [0.1, 10], and any reading in that range passes unchanged. |
| Input.PlayerInput.constructor | src/input/input.go:73-76 | A paired controller keeps its id and side; its axes and buttons start at zero. |
| Input.PlayerInput.SetControlState | src/input/input.go:100-117 | A left controller's stick is negated and a right one's taken as is. Each axis goes through the dead zone, the button word is copied, and `GetAxes` then returns the stored axes. |
| Input.PlayerInput.PressedByMaskMap | src/input/input.go:125-130 | `IsButtonPressed(b)` holds exactly when either mask of b's map entry has a bit set in the word. |
| JoyCon.ButtonsAreDistinctBits | spike/joycon.go:13-25 | The eleven button constants are distinct bit positions between 8 and 23. |
| JoyCon.PressedIffBitSet | spike/joycon.go:34-38 | `ButtonPressed(b)` holds exactly when bit number b of the word is set. |
| JoyCon.NothingPressed | spike/joycon.go:37 | With no bit set, no button reports pressed. |
| JoyCon.OtherBitSetIrrelevant | spike/joycon.go:36-37 | Setting any other bit does not change whether b reports pressed. |
| JoyCon.OtherBitClearedIrrelevant | spike/joycon.go:36-37 | Clearing any other bit does not change whether b reports pressed. |
| Graphics.NextFrame | src/graphics/animation.go:33 | The next frame is a valid index: one on, or back to 0 after the last frame. |
| Graphics.Advance | src/graphics/animation.go:33 | Any number of advances stays a valid frame index. |
| Graphics.AdvanceWithinLap | src/graphics/animation.go:33 | Within one lap, k advances move k frames forward and wrap past the last frame. |
| Graphics.CycleReturns | src/graphics/animation.go:33 | After as many advances as there are frames, the animation is back where it started. |
| Graphics.Animation.NewAnimation | src/graphics/animation.go:20-27 | One frame per sprite id, in order, with the default 100 ms delay and frame 0. |
| Graphics.Animation.Draw | src/graphics/animation.go:31-35 | Once the delay has passed, the frame advances one step (mod the frame count) and the draw time becomes `now`. Otherwise nothing changes, and the frame stays a valid index. |
| Menu.CycleIndex | src/gameplay/menu.go:80-90 | The new index is in range: one forward for a positive axis and one back otherwise, wrapping at both ends. |
| Menu.CycleInverse | src/gameplay/menu.go:80-90 | A step forward and a step back undo each other. |
| Menu.Step | src/gameplay/menu.go:75-101 | One lobby update keeps the selection an entry of the list. |
| Menu.StepCycles | src/gameplay/menu.go:77-95 | The index moves one step in the stick's direction exactly when the stick is off centre and the debounce delay has passed; the change time then becomes `now`. |
| Menu.StepToggles | src/gameplay/menu.go:96-101 | Ready flips exactly when X is held and the debounce delay has passed since the last flip; the flip time then becomes `now`. |
| Menu.StepRateLimited | src/gameplay/menu.go:78-100 | After a change, whatever the inputs, nothing changes again until more than the delay has passed. |
| Menu.PlayerData.NewPlayerData | src/gameplay/menu.go:30-41 | A new panel shows entry 0, with its sprite and name, is not ready, and has the 300 ms delay. |
| Menu.PlayerData.Update | src/gameplay/menu.go:75-102 | The selection takes one `Step` on the first axis and the X button, and the sprite and name follow the selected entry. |
| GameState.PlayerData.NewPlayerData | src/gameplay/gamestate.go:148-158 | A new panel shows entry 0 with its sprite, is not ready, and has the 300 ms delay. |
| GameState.PlayerData.Update | src/gameplay/gamestate.go:193-220 | The selection takes one `Step` on the first axis and the X button; the sprite follows the selected entry. |
| GameState.MenuState.constructor | src/gameplay/gamestate.go:70-101 | A loaded lobby over a character list and its panels is not ready. |
| GameState.MenuState.SpriteIds | src/gameplay/gamestate.go:105-108 | The sprite ids handed to the play screen are those of every list entry, in order. |
| GameState.MenuState.GetNextState | src/gameplay/gamestate.go:103-112 | Returns no screen until the lobby is ready, then the play screen for those sprite ids. |
| GameState.MenuState.Update | src/gameplay/gamestate.go:114-125 | Every panel takes its `Step`. The lobby is ready afterwards exactly when it was before or when every panel is now ready. |
| GameState.PlayState.GetNextState | src/gameplay/gamestate.go:36-38 | The play screen never hands over. |
| GameObject.Entity.constructor | src/gameobject/gameobject.go:15-19 | An object at the given place with the given id and image, at rest. |
| GameObject.Entity.Update | src/gameobject/gameobject.go:33-36 | Position moves by the velocity, and the velocity is unchanged. |
| GameObject.Player.NewPlayer | src/gameobject/gameobject.go:44-55 | A player starts at the given place, at rest, bound to its controller. |
| GameObject.Player.Update | src/gameobject/gameobject.go:57-63 | Velocity becomes five times the swapped axes, and the player then moves once by it. |
| Tiles.NewTile | src/gameplay/gameobject.go:38-43 | A new tile is a 32 x 32 square at the given place, impassable. |
| Tiles.ToBufferIndex | src/gameplay/world.go:390-392 | Every world column maps into the 120-column ring. |
| Tiles.BufferIndexPeriodic | src/gameplay/world.go:390-392 | Columns 120 apart share a ring column. |
| Tiles.DistinctColumns | src/gameplay/world.go:390-392 | World columns fewer than 120 apart use different ring columns. |
| Tiles.Trunc | src/gameplay/world.go:210-211 | Float-to-integer conversion rounds toward zero. |
| Tiles.WorldToBuffer | src/gameplay/world.go:209-214 | For non-negative points: the column is floor(x / 32) mod 120, and the row is the band that contains y. |
| Tiles.CellAt | src/gameplay/world.go:197-214 | Any cell a point is given lies inside the 30 x 120 grid. |
| Tiles.CollisionIsTileSolidity | src/gameplay/world.go:197-207 | For a non-negative point, there is a collision exactly when its row is inside the grid and the tile at (row, column mod 120) is impassable. |
| Tiles.BelowGridIsOpen | src/gameplay/world.go:199-201 | Below the last row there is never a collision. |
| Tiles.CollisionPeriodic | src/gameplay/world.go:209-214 | Moving a point 120 tiles right gives the same collision answer. |
| Camera.SharedCentreIsCentred | src/gameplay/camera.go:22-27 | When every player has the same centre, the new x offset puts that centre mid-screen. |
| Camera.Camera.NewCamera | src/gameplay/camera.go:12-16 | A new camera is at the origin, with no screen size yet. |
| Camera.Camera.SetScreenSize | src/gameplay/world.go:162-164 | The drawing pass stores the screen's size. |
| Camera.Camera.Update | src/gameplay/camera.go:18-37 | Without a screen size or players, nothing moves. Otherwise the x offset takes a strictly smaller centroid offset, but only while the level's end is off screen. The y offset follows unless that would show below the band, and the x offset never increases. |
| Camera.Camera.GetRenderOffset | src/gameplay/camera.go:40-42 | The offsets, unchanged; the x offset is never positive. |
| Camera.Camera.InsideIsClosedInterval | src/gameplay/camera.go:45-54 | Between two on-screen x positions every x is on screen, and with the -1 sentinel only x matters. |
| Camera.Camera.InsideBounds | src/gameplay/camera.go:45-54 | With the sentinel, x is on screen exactly when -offX <= x <= -offX + width. Otherwise, y must also satisfy -offY <= y <= -offY + height. All bounds are inclusive. |
| Camera.Camera.CentroidOnScreen | src/gameplay/camera.go:27-31 | After the camera has taken the centroid offset, the players' mean centre is on screen. |
| Entities.Clamp | src/gameplay/gameobject.go:60-69 | The result is in [-12, 12]: values within are kept and values beyond are cut to the bound. |
| Entities.StepBounds | src/gameplay/gameobject.go:58-98 | After a step both speeds are in [-12, 12]. Each axis has either moved by exactly its clamped speed or stood still with its speed zeroed. |
| Entities.StepMovesIntoFreeSpace | src/gameplay/gameobject.go:70-96 | A move happens only if the leading edge it lands on is clear at both probe points, and on screen for an entity kept there. The vertical probe uses the x reached by the horizontal pass. |
| Entities.AxesIndependent | src/gameplay/gameobject.go:84-96 | A horizontal block does not stop the vertical pass: it is the pass the entity would take with no horizontal speed. |
| Entities.Entity.constructor | src/gameplay/gameobject.go:17-21 | An entity with the given box, image and camera flag; every other field starts at Go's zero value. |
| Entities.Entity.Update | src/gameplay/gameobject.go:58-98 | The entity's position and velocity become `Step` of the old ones against the grid and the camera view. |
| Entities.Entity.LimitVelocity | src/gameplay/gameobject.go:59-69 | Both speeds become their `Clamp`. |
| Entities.Entity.MoveHorizontally | src/gameplay/gameobject.go:70-83 | Position and velocity become `HorizontalPass` of the old ones. |
| Entities.Entity.MoveVertically | src/gameplay/gameobject.go:84-96 | Position and velocity become `VerticalPass` of the old ones. |
| Entities.Entity.AddVel | src/gameplay/gameobject.go:100-103 | The velocity gains (dx, dy), component by component. |
| Entities.Player.NewPlayer | src/gameplay/gameobject.go:111-123 | A player starts at the given box, at rest, kept on screen. |
| Entities.Player.Update | src/gameplay/gameobject.go:125-150 | Holding the left trigger gives vx = 0; otherwise vx is 5 times the second axis. B subtracts 8.5 from vy only when there is ground 2 units below either bottom corner. A fires exactly one bullet: a 10 x 10 entity dealing 10 damage, at 50 times the swapped axes. |
| Zombies.Speed | src/gameplay/zombies.go:58 | Speed is in [1.5, 1.5 + 99/75]. |
| Zombies.HearingDistance | src/gameplay/zombies.go:59 | Hearing is in [320, 575]. |
| Zombies.ChaseApproaches | src/gameplay/zombies.go:83-90 | A zombie never walks away from its target, and it stands exactly when within attack distance horizontally. |
| Zombies.FirstContactPrimes | src/gameplay/zombies.go:93-96 | The first attack attempt never hits; it starts the cooldown. |
| Zombies.HitAfterCooldown | src/gameplay/zombies.go:97-100 | A hit lands exactly when the cooldown has run out since the last attack, and it then restarts the cooldown. |
| Zombies.OneHitPerCooldown | src/gameplay/zombies.go:93-100 | After a hit, no attempt within the cooldown hits again. |
| Zombies.BaseZombieAI.Init | src/gameplay/zombies.go:54-60 | The AI is bound to its zombie with no target: attack distance 16, cooldown 1000, and the rolled speed and hearing. |
| Zombies.BaseZombieAI.FindNearest | src/gameplay/zombies.go:64-77 | Returns -1 exactly when no player is within hearing. Otherwise it returns the audible player of least Manhattan distance, the first one on ties. |
| Zombies.BaseZombieAI.Update | src/gameplay/zombies.go:62-104 | A target, once held, is kept. Without one the zombie takes the nearest audible player, or does nothing if there is none. With a target it walks by `ChaseVx`. Within reach it attempts `AttackStep`, costing the target 25 health per hit. No other player's health changes. |
| Zombies.Zombie.NewZombie | src/gameplay/zombies.go:16-27 | A 31 x 31 zombie with 100 health, facing right, subject to gravity, and its AI bound to it with no target. |
| Zombies.Zombie.Update | src/gameplay/zombies.go:29-31 | The zombie's target is kept once held, and is always one of the players. |
| World.SwitchBiome | src/gameplay/world.go:329-343 | The switch check keeps the generator's state consistent: the active biome stays configured, with its configuration's record. |
| World.ColumnStep | src/gameplay/world.go:329-385 | One generated column keeps the state consistent, decides the cursor's column, and moves the cursor one on. |
| World.Run | src/gameplay/world.go:327-386 | n columns in a row move the cursor n on and decide the columns cursor, cursor + 1, and so on, in order. |
| World.BiomeSwitch | src/gameplay/world.go:331-343 | The switch happens exactly when the active biome is over. The next ring slot then starts at the cursor, with a neighbour's type and that type's configuration. Otherwise only the floor of the active biome may change, and no other slot changes. |
| World.FloorContinuity | src/gameplay/world.go:330-354 | The ground row is the previous active biome's floor plus the noise. The active floor becomes the ground row only on the biome's last column, and a new biome starts from the old final floor. |
| World.FlatTerrain | src/gameplay/world.go:346-354 | With every amplitude zero, every generated column's ground row is the active floor, which never changes. |
| World.FlatStep | src/gameplay/world.go:346-354 | With every amplitude zero, one column keeps the floor and puts its ground on it. |
| World.StartState | src/gameplay/world.go:285-297 | A new level's generator is consistent: its active biome is "start", on row 15. |
| World.FlatFromStart | src/gameplay/world.go:295 | With every amplitude zero, a new level's ground is row 15 everywhere. |
| World.GenCount | src/gameplay/world.go:325-327 | No columns are generated while more than 40 are ready; otherwise the cursor ends at `worldXStart + 81`. |
| World.SpawnAt | src/gameplay/world.go:379-381 | The zombie rolled for a column belongs to that column. |
| World.Spawns | src/gameplay/world.go:378-384 | At most one zombie per generated column. |
| World.SpawnsOnGround | src/gameplay/world.go:378-384 | A zombie is rolled exactly for the generated columns whose roll is 0, each on top of its column's ground. |
| World.WriteCol | src/gameplay/world.go:364-377 | Writing a column changes only its ring column, and every row of it is regenerated. |
| World.Regenerated | src/gameplay/world.go:364-377 | The tile is at the column's world x: sky above the ground row, surface on it, subsurface below, and only sky is passable. Its id, row and size are kept. |
| World.LaidStep | src/gameplay/world.go:345-377 | Writing the next column keeps the account. The new column is written, the 119 before it keep theirs, and ring columns it does not use are untouched. |
| World.Level.NewLevel | src/gameplay/world.go:285-297 | A fresh ring whose first slot is the start biome on row 15, with nothing generated yet. |
| World.Level.InitWorld | src/gameplay/world.go:300-306 | Every cell gets a new tile at its own position, with no image. |
| World.Level.SwitchIfOver | src/gameplay/world.go:329-343 | The ring after the check is `SwitchBiome` of the ring before it. |
| World.Level.WriteColumn | src/gameplay/world.go:357-377 | The grid after the write is `WriteCol` of the grid before it. |
| World.Level.GenerateColumn | src/gameplay/world.go:329-385 | The generator's state and column are `ColumnStep` of the old state; the grid is `WriteCol` of the old grid. |
| World.Level.CheckWorldUpdate | src/gameplay/world.go:323-388 | Exactly `GenCount` columns are generated as `Run` decides them. Their zombies are returned, the last 120 of them are in the grid, and other ring columns are untouched. |
| World.Level.GenerateThrough | src/gameplay/world.go:327-386 | The loop generates the columns from the cursor through `last`, as `Run` decides them. |
| World.Level.GenerateFrom | src/gameplay/world.go:327-386 | The loop ends with the cursor at `last + 1`, the state and columns equal to `Run`, the spawns equal to `Spawns`, and the grid `Laid`. |
| World.Level.GeneratePass | src/gameplay/world.go:328-385 | One pass extends the run, the spawns and the grid's account by one column. |
| World.Level.Update | src/gameplay/world.go:308-321 | Once the window has reached the level's width, the end is reported and nothing changes. Otherwise the window becomes the camera's view in whole columns, and generation is checked. |
| World.OverlapsSound | src/gameplay/world.go:130-138 | The corner test only relates boxes that share a point, and it relates every box lying inside another. |
| World.OverlapsMissesCrossing | src/gameplay/world.go:130-138 | Two crossing bars share points, but the corner test relates them in neither order. |
| World.ShiftedBoxesOverlap | src/gameplay/world.go:130-138 | Boxes (0, 0, 10, 10) and (5, 5, 10, 10) are related both ways. |
| World.PartnersSymmetric | src/gameplay/world.go:139-142 | The scan's relation is symmetric and relates only listed entities. |
| World.NoSelfPartner | src/gameplay/world.go:126-128 | An entity listed once is never its own partner. |
| World.World.NewWorld | src/gameplay/world.go:52-69 | The camera is at the origin and the players are placed, unflagged, and listed as objects and entities. Gravity is .25, and the level is 100 columns wide with its grid initialised. |
| World.World.PlacePlayers | src/gameplay/world.go:55-63 | Each player is placed at (32, 32) unflagged, and the players' entities are listed in order. |
| World.World.Update | src/gameplay/world.go:76-144 | The world stays consistent, including no entity listed twice, and the camera only scrolls right. `canLeave` is set once the level's end is reached. `allPlayersDoneOrDead` holds exactly when every player is flagged, and zombies keep their targets. Every unflagged entity's collision list is exactly its `Partners` in the new entity list. |
| World.World.Scroll | src/gameplay/world.go:78-79 | Camera and level step: the camera only scrolls right, `canLeave` is as above, zombies are never lost, and what joins is new. |
| World.World.RunPasses | src/gameplay/world.go:81-144 | After the passes, `allPlayersDoneOrDead` holds exactly when every player is flagged. Zombies stay bound and keep their targets, the entity list stays free of repeats, and every unflagged entity's collision list is exactly its `Partners`. |
| World.World.ObjectPasses | src/gameplay/world.go:92-144 | Through the object, zombie and entity passes, zombies stay bound and keep their targets. The entity list stays free of repeats, and every unflagged entity's collision list ends as exactly its `Partners`. |
| World.World.EntityPasses | src/gameplay/world.go:114-144 | The entity list becomes the sweep of its flags and stays free of repeats. Every unflagged entity's motion becomes `Fallen` of its old motion against the grid and view. Its collision list is rebuilt to exactly its `Partners` among the kept entities. |
| World.World.AddEntity | src/gameplay/world.go:146-150 | The entity is appended to the objects and the entities. |
| World.World.AddProjectile | src/gameplay/world.go:152-155 | Its entity is added, and it is appended to the projectiles. |
| World.World.AddZombies | src/gameplay/world.go:378-384 | Each spawn adds a new zombie, in order, listed as a zombie, an object and an entity. Each has its spawn point, full health, and its column's rolls. |
| World.World.AddZombie | src/gameplay/world.go:381-383 | One new zombie at the spawn point, appended to the three lists. |
| World.World.UpdatePlayers | src/gameplay/world.go:81-91 | Each player is flagged when it was already or its x is off screen, and its velocity is what its controls give. `allPlayersDoneOrDead` holds exactly when every player is flagged. The old lists are kept as a prefix of the entities, and the appended part is also appended to the objects. It is exactly the `Volley` of the players' aims at the start of the pass: one new bullet per player holding A, in player order, each placed where its player stood, 10 x 10, dealing 10 damage, with 50 times the player's swapped axes as its velocity. The entity list stays free of repeats. |
| World.World.StepPlayers | src/gameplay/world.go:82-91 | The player loop: each player reaches its target state, the returned flag holds exactly when every player is flagged, and the collected bullets are new, free of repeats, and the `Volley` of the players' aims at its start. |
| World.World.Publish | src/gameplay/world.go:146-150 | The flag is set, and the fired bullets are appended to the objects and to the entities. Entities free of repeats stay so when the bullets are distinct and not yet listed. |
| World.World.PlayerPass | src/gameplay/world.go:82-91 | One player of the loop reaches its target state, and the running flag extends by it. The bullet list gains this player's bullet exactly when it holds A, so it stays the `Volley` of the players so far, and stays free of repeats. |
| World.World.UpdatePlayer | src/gameplay/world.go:83-90 | The player is flagged if off screen, then updated from its controller. A bullet is returned exactly when A is held; it is new and `ShotBy` the player's aim from before the update. |
| World.ShootersAreFiring | src/gameplay/world.go:82-90 | The players whose bullets a pass collects are exactly those holding A, each listed once, in increasing player order. |
| World.VolleyStep | src/gameplay/gameobject.go:137-149 | One more player extends the volley by its bullet exactly when it fires, and that bullet is shot with its aim. |
| World.World.SweepGameObjects | src/gameplay/world.go:92-97 | The object list becomes the sweep of its flags. |
| World.World.UpdateZombies | src/gameplay/world.go:99-105 | The zombie list becomes the sweep of its flags, zombies keep their targets, and every target is a player. |
| World.World.ZombiePass | src/gameplay/world.go:100-104 | One zombie is updated and removed at its index if flagged; the sweep extends by one flag. |
| World.World.UpdateZombie | src/gameplay/world.go:100 | A zombie's target is kept once held, and is always one of the players. |
| World.World.StepEntities | src/gameplay/world.go:114-122 | The entity list becomes the sweep of its flags. When no entity is listed twice, each unflagged entity has fallen by gravity times its multiplier, taken one `Step` against the grid and view, and forgotten its collisions. `World.Valid` keeps the list free of repeats. |
| World.World.StepEntitiesFrom | src/gameplay/world.go:114-122 | The loop over the list as it was gives the sweep. For a list without repeats, each unflagged entity ends at its target motion with an empty collision list. |
| World.World.StepEntitiesPass | src/gameplay/world.go:115-121 | One entity is removed at its index if flagged, or stepped otherwise. For a list without repeats, the entities before it keep their results and the ones after it are untouched. |
| World.World.StepEntity | src/gameplay/world.go:119-121 | The entity's motion becomes `Fallen` of its old motion, and its collision list is emptied. |
| World.World.FindCollisions | src/gameplay/world.go:123-144 | Afterwards each listed entity's collision list holds what it held plus exactly its `Partners`: the entities at another position whose box the corner test relates to its own, in either order. |
| World.World.LinkRow | src/gameplay/world.go:124-143 | Row i of the scan adds exactly the pairs that start at i. |
| World.World.LinkPair | src/gameplay/world.go:126-142 | The pair (i, j) adds each entity to the other's list exactly when i != j and the corner test relates their boxes. |

## Left out

- **Drawing and text layout** are not modelled:
  - every `Draw` method, `World.Draw` and `DrawPlayerInfo`;
  - the background parallax and the draw call inside `Animation.Draw`;
  - the lobby panels' random colours.

  They are rendering, and have no effect on the state.
- **Asset and configuration loading** is not modelled. This covers the sprite
  loader, `LoadJSON`, the biome table read in `NewLevel`, and the
  `res/models.json` read and controller pairing in `NewMenuState`. The biome
  table is a parameter: a map that must be `WellFormed`. That means it has a
  "start" entry, every biome has at least one neighbour, and every neighbour
  is itself in the table. Go accepts any table. With a neighbour missing,
  Go's map lookup gives a zero `BiomeJson`. A later step then divides by its
  empty `NextTo` (world.go:336) and panics. The model excludes the tables on
  which Go would panic.
- **Device I/O and concurrency** are not modelled: the JoyCon search and
  pairing, the goroutines feeding `SetControlState`, the mutex in
  `PlayerInput`, and `main` and `RegisterJoyCon` of the JoyCon experiment.
- **The Perlin noise** is an oracle that returns the truncated ground offset.
  Go's `uint32` conversion of a negative product is platform-defined and is
  not modelled.
- **`Normalize`** is left out, because it needs a square root.
- **`float32` rounding** is left out: all coordinates are reals.
- **`WorldDataLoader`** and `ShopState` are left out: nothing in the core
  uses them.
- **World.World.Update** does not model the projectile pass (world.go:107-113).
  The `Projectile` type and its `Update` are defined outside the modelled
  files. The
  world's projectile list is kept, and `AddProjectile` appends to it.
- **World.World.Update** states the camera ratchet, `canLeave`, the
  all-players flag, the world's consistency and target stickiness. It does
  not compose the effects of each pass; those are stated on the pass methods
  it calls (`UpdatePlayers`, `SweepGameObjects`, `UpdateZombies`,
  `StepEntities`, `FindCollisions`).
- **World.World.RunPasses** and **World.World.ObjectPasses** state the same
  composition only in part, for the same reason.
- **World.World.UpdateZombies** gives every zombie the same clock reading,
  `now`. Go reads the clock separately inside each zombie's attack
  (src/gameplay/zombies.go:93). The readings of one frame differ by the time
  the loop takes, and only the cooldown comparison sees them.
- **World.World.UpdatePlayers** appends the fired bullets after the player
  loop, where Go's `Player.Update` calls `AddEntity` during it. The loop
  reads neither list, so the final lists are the same.
- **World.World.StepEntities**, **World.World.StepEntitiesFrom** and
  **World.World.StepEntitiesPass** state each unflagged entity's new motion
  only for a list without repeats. A listed-twice entity would be stepped
  twice. `World.Valid` keeps the world's entity list free of repeats:
  `NewWorld` lists distinct players, and every addition is a new object.
  Sweeps keep it so by `Common.SweepKeepsDistinct`. So `EntityPasses` states
  the result unconditionally.
- **World.World.Scroll**, **World.World.UpdateZombie** and
  **Zombies.Zombie.Update** state stickiness and membership only. The full
  behaviour of a zombie's step is stated on `Zombies.BaseZombieAI.Update`.
- **Camera.Camera.Update** with no players: Go divides by zero and gets NaN,
  and every comparison with NaN fails. The model leaves both offsets
  unchanged, which is the same outcome.
- **Tiles.CellAt** gives no cell for a point whose truncated row or column is
  negative. Go's `uint32` conversion of a negative float is
  platform-defined. On amd64 a negative column wraps to a valid ring
  column: x = -40 gives column 15. Go would then test that tile where the
  model reports no collision.
- **JoyCon.ButtonPressed** and **JoyCon.Mask** require `button < 32`. For a
  larger number, Go's `uint32(math.Pow(2, b))` is platform-defined.
- **GameState.MenuState.constructor** receives the character list and the
  panels. The file reading and controller pairing of `NewMenuState` are not
  modelled, and neither is the map iteration order that fixes the list's
  order.
- **GameState.MenuState.Update** takes one clock reading per panel. Go reads
  the clock inside each panel's update.
- **Zombie AI variants.** `ZombieAI` is an interface with a single
  implementation, `BaseZombieAI`, which is the one modelled.
- **Mid-refactor entity fields.** `src/gameplay/zombies.go` uses entity
  fields that `src/gameplay/gameobject.go` does not declare: `shouldRemove`,
  `gravityMultiplier` and `facingDir`. They are declared on
  `Entities.Entity` at Go's zero values. `NewZombie` (zombies.go:21) calls
  `NewGameObject` with nine arguments, where gameobject.go:17 takes seven.
  The model ignores the extra `0` and `true`. A zombie's `stayWithinCamera`
  stays false, Go's zero value, because the entity it is built from never
  sets it. The zombie's `walkAnimation` and `idleAnimation` are left out;
  only drawing uses them.
- **Display-only player fields** are left out: a player's name and `isDead`
  are used only by drawing.

## Findings

| source | as written | input that shows it | evidently intended | confidence | as-written member | corrected member |
|---|---|---|---|---|---|---|
| src/common/common.go:128-136 | `MaxPoint` returns p3 whenever the maximum is tied between p1 and p2 | `MaxPoint(5, 5, 1)` is 1 | the largest of the three | high; not executed | Common.MaxPointTieCounterexample | Common.Max3 |
| src/common/common.go:152-160 | `MinPoint` returns p3 whenever the minimum is tied between p1 and p2 | `MinPoint(1, 1, 5)` is 5 | the smallest of the three | high; not executed | Common.MaxPointTieCounterexample | Common.Min3 |
| src/common/common.go:122-123 | when p3 is the strict maximum, `TwoMaxPoints` returns p1 first | `TwoMaxPoints(1, 2, 3, 0)` is `(1, 2)` | `(3, 2)` | high; not executed | Common.TwoPointsCounterexamples | Common.TwoLargest |
| src/common/common.go:138-150 | `TwoMinPoints` takes `MaxPoint` of the other three as its second value | `TwoMinPoints(0, 1, 2, 3)` is `(0, 3)` | `(0, 1)` | high; not executed | Common.TwoPointsCounterexamples | Common.TwoSmallest |
