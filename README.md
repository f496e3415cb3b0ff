# Player controller of a 2D tile platformer

This project models the per-frame logic of the game's `Player`:

- the direction read from two pairs of movement keys;
- the friction step on the horizontal velocity;
- the force the keys add;
- the accept/reject step that moves the player only when its box at the
  new position hits no collidable tile of the map;
- the camera that follows the player;
- the walk-cycle frame counter that advances on a timer while the player
  moves, and the idle/walk/mirrored choice made when rendering.

Files:

- `Geometry.dfy` holds the vector and rectangle values and Raylib's
  rectangle collision test. The test is taken to be strict axis-aligned
  overlap, so rectangles that only share an edge do not collide. Raylib's
  code is not part of this model, so this is an assumption.
- `Tiles.dfy` holds the row-major tile map. The tile at index `i` sits in
  grid cell `(i % width, i / width)`. The file proves that this mapping is a
  bijection between indices and cells inside the grid's width. It also
  defines `Collides`, the reference predicate "some collidable tile's square
  overlaps the box".
- `Player.dfy` holds the player's constants and the pure functions that
  specify one frame: `Direction`, `Friction`, `NextVelocity`, `NextFrame`
  and `AnimationStep`. It also holds the class `Player`, whose fields are
  the state the source keeps in static fields: position, velocity, camera
  target, animation frame and the time of the last frame advance.

Modelling choices:

- Single-precision floats and doubles are modelled as `real`.
- Key state, frame time and current time are parameters.
- The map is passed in as a `TileMap` value with a positive width.
- The friction step is modelled exactly as written. It multiplies the
  horizontal velocity by `-0.01`, so every velocity it keeps changes sign.
  `Friction` states this.
- The animation wrap law holds for any frame it starts from: after as many
  advances as there are frames, the counter is back at its starting frame,
  not necessarily at 0.

## Model

| member | source | states |
|---|---|---|
| `Geometry.Overlaps` | src/Player.cs:157 | Raylib's `CheckCollisionRecs`, assumed to be strict overlap on both axes: a hit iff the first rectangle's corner lies strictly inside the second's extent widened by the first's size; a hit needs positive combined width and height |
| `Geometry.EdgeContactIsNoHit` | src/Player.cs:157 | Under the assumed strict overlap test, a player box and a tile that only touch along an edge, on any of the four sides, do not collide |
| `Tiles.CellOf` | src/Player.cs:152 | The cell of tile `i` has a column below the map width, and `i == row * width + column` |
| `Tiles.TileRect` | src/Player.cs:152-153 | The tile at index `i` occupies the square of side `TileSize` whose corner is `(i % Width, i / Width) × TileSize` |
| `Tiles.IndexOfCellOf` | src/Player.cs:152 | Turning an index into its grid cell and back gives the same index |
| `Tiles.CellOfIndexOf` | src/Player.cs:152 | Turning a cell inside the grid width into an index and back gives the same cell |
| `Tiles.CellOfInjective` | src/Player.cs:152 | Two different tile indices never map to the same grid cell |
| `Tiles.PassableMapNeverCollides` | src/Player.cs:145-162 | A map with no collidable tile never causes a collision, including the empty map |
| `Tiles.ClearingTileNeverAddsCollision` | src/Player.cs:148 | A tile with its collision flag off cannot be the cause of a hit: clearing a flag never turns a miss into a hit |
| `Tiles.SingleTileScenario` | src/Player.cs:141-157 | Map 10 wide, 32-unit tiles, only tile 5 collidable: a 16×32 box at (170, 10) collides, and the same box at (300, 10) does not |
| `PlayerController.Direction` | src/Player.cs:119-121 | Vertical component 0. Horizontal component in {-1, 0, 1}: +1 iff only the right pair is held, -1 iff only the left pair is held |
| `PlayerController.Friction` | src/Player.cs:125-127 | Result is 0 or has magnitude at least 0.1. It is 0 iff the input magnitude is below 10. A kept value is a hundredth of the input's magnitude with the opposite sign |
| `PlayerController.NextVelocity` | src/Player.cs:126-131 | Horizontal: friction on X plus direction × 247.5 × frame time. Vertical: kept |
| `PlayerController.PlayerBox` | src/Player.cs:141 | The player's collision box has its corner at the given position and is 16 wide and 32 high |
| `PlayerController.VerticalVelocityKept` | src/Player.cs:126-131 | One frame of friction and key force never changes the vertical velocity |
| `PlayerController.NoInputDecays` | src/Player.cs:119-131 | With no net key input the horizontal speed shrinks to at most a hundredth, and a velocity of 0 stays 0 |
| `PlayerController.NextFrame` | src/Player.cs:174-175 | From a frame in `[0, count)` the next frame is `(frame + 1) % count`, also in range. From any frame it is 0 or `frame + 1` |
| `PlayerController.AdvanceIsModular` | src/Player.cs:174-175 | `n` advances from a frame in range give `(frame + n) % count` |
| `PlayerController.WrapLaw` | src/Player.cs:174-175 | After `count` advances the walk cycle is back at its starting frame |
| `PlayerController.AnimationStep` | src/Player.cs:169-179 | When at least `1/fps` has passed since the last advance, the frame advances and the timestamp becomes the current time; otherwise both are unchanged. The frame stays in `[0, 4)` |
| `PlayerController.WalkSource` | src/Player.cs:92-95 | The walk texture's source rectangle is the full 16×32 sprite. Its width is negative, so the sprite is mirrored, iff the horizontal velocity is negative |
| `PlayerController.Player.Start` | src/Player.cs:27-51 | At start the camera looks at the player, the velocity is zero, the walk cycle is at frame 0 and the animation clock starts at the given time |
| `PlayerController.Player.Update` | src/Player.cs:64-70 | After moving, the camera target is exactly the player's position plus the camera offset (16, -16) |
| `PlayerController.Player.Movement` | src/Player.cs:116-136 | The new velocity is friction plus key force, whatever the collision outcome. The position becomes position + velocity iff the box there collides with no tile; otherwise it is unchanged |
| `PlayerController.Player.Collision` | src/Player.cs:138-163 | The in-order scan with early exit returns true iff some tile flagged collidable has a square that overlaps the player's 16×32 box at the new position |
| `PlayerController.Player.Render` | src/Player.cs:72-101 | The idle sprite is drawn iff the horizontal velocity is exactly 0, and then the animation state is unchanged. Otherwise the walk cycle takes one animation step and its current frame is drawn, mirrored iff the velocity is negative |
| `PlayerController.Player.Animate` | src/Player.cs:166-180 | The frame and timestamp after the call are one animation step of the old ones at the current time. The frame stays within the loaded textures |

## Left out

- Texture loading and unloading (`Start`, `CleanUp`) are file I/O through Raylib. Only the count of walk textures (4) is kept.
- The drawing calls are left out: the velocity text overlay, `DrawTextureV` and `DrawTextureRec`. `Render` returns the chosen `Sprite` instead of drawing it.
- `Camera2D`: only the target is modelled. The offset depends on `Game.GameWidth`/`Game.GameHeight`, which are not part of this model. Rotation (0) and zoom (1) are fixed constants that nothing modelled reads.
- Raylib's `IsKeyDown`, `GetFrameTime` and `GetTime` are replaced by parameters.
- Single- and double-precision rounding is not modelled. All arithmetic is on `real`, so `0.01f`, `0.1f` and `1f / 10f` are the exact decimals.
- `jumpForce` is computed but never used, and there is no vertical physics, so it is not modelled.
- `Player.Collision`, `Player.Movement` and `Player.Update` require a map width above 0. The source also runs with other widths. With a width of 0 it throws a division-by-zero error at the first collidable tile, and returns false without error when no tile is collidable or the list is empty. With a negative width, C#'s truncating `%` and `/` give non-positive rows (the column keeps the index's sign) and nothing throws. Neither case is modelled.
- The map's tile list, width and tile size are read from a `Map` class that is not part of this model. They are modelled as a value passed to each frame.
- `Player.Start` stands for the static field initializers plus the source's `Start`. The zero velocity and frame 0 come from the initializers, not from `Start`, so a second call to the source's `Start` would not reset them; the model has no such second call.
- The player's starting position is a parameter of `Start`. Whatever sets it before the game starts is not part of this model.
