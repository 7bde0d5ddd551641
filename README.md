# A verified model of a canvas side-scroller's game loop

The game is a small 2-D platformer drawn on a 1024 x 576 canvas. A player
character runs and jumps across seven platforms over a two-layer parallax
background. The camera never moves: once the player reaches the edge of a
central walking band, the world scrolls under it instead. All game state
lives in module-level variables of `src/js/canvas.js`: the player, the
platform and background arrays, the scroll offset, the pressed flags of the
A and D keys, and `currentKey`, the direction of the last movement key
pressed. Each repaint calls `animate`, which runs in fixed order:

1. the player's physics and animation step;
2. horizontal input resolution: walk, or scroll the world;
3. landing on platforms;
4. sprite switching;
5. the win check, then the lose check, which calls `init` to restart.

Keyboard handlers flip the key flags between ticks.

The model has two layers.

- `PlayerModel` and `WorldModel` describe the game as values. A
  `WorldState` is a snapshot of every module-level variable. There is one
  function per step of the loop (`Update`, `ResolveHorizontal`, `Collide`,
  `ResolveSprite`, `Animate`), plus `Init`, `KeyDown` and `KeyUp`. `Run`
  delivers any sequence of ticks and key events.
- `Canvas` is the program as it runs. `Player` is a class whose `Update`
  changes its fields in place. `World` owns the player object, the arrays
  of platforms and background layers, which it shifts in place during
  scrolling, the scroll offset and the keyboard state. Each method of
  `World` is proved to produce exactly the state that the matching
  `WorldModel` function gives for the state before the call.

`WorldProperties` proves what the loop guarantees: the exact branch rules of
each step, and invariants that hold in every state reachable from the start
of the game. These are: the scroll offset is a non-negative multiple of 10;
the sprite metadata and frame counter agree with the sprite shown; every
platform and background layer sits at its `init` position moved by the
scroll offset (the background by 0.66 of it); and the player stays within
90 < x < 410.

The program sets the canvas to 1024 x 576 itself (lines 17-18). The model
takes that height, 576, as the parameter `canvasHeight`, so the proofs hold
for any height. The natural widths of the images come from the host. The
height and the widths form an `Assets` value that is fixed when the `World`
is built.
Coordinates and velocities are exact `real`s; `frames`, the speed and the
scroll offset are integers.

Two consequences of the code as written are proved rather than assumed:

- `WorldProperties.WalkLeftOfOriginUnreachable`: the walk-left condition
  `scrollOffset === 0 && x < 0` (line 279) never holds in a reachable
  state, because the player's x never drops below 90.
- `WorldProperties.StandAnimationFrozen`: once a direction key has been
  pressed and released, every tick switches a standing player to the run
  sprite and straight back (lines 319-336). That resets `frames` to 1, so
  the stand animation shows the same frame on every later tick.

Two details of the order of steps are kept as the code has them:

- The draw call inside `update` uses the frame counter after its wrap and
  the position before the move.
- The sprite after a tick follows `currentKey` only when the lose check did
  not reset the world. After a reset the sprite is always the right-facing
  stand sprite.

## Model

| member | source | states |
|---|---|---|
| PlayerModel.NewPlayer | src/js/canvas.js:25-64 | a new player stands right, at frame 0, with the stand sprite's crop width and render width |
| PlayerModel.NextFrames | src/js/canvas.js:84-97 | the frame counter after its step is at most 59 for a stand sprite and 29 for a run sprite; it is either 0 or the old value plus 1; from an in-range value it wraps to 0 exactly when the old value was the last frame |
| PlayerModel.UpdatePhysics | src/js/canvas.js:82-111 | `update` steps the frame counter by exactly `NextFrames`' rule; it moves the position by exactly the old velocity and keeps `velocity.x`; `velocity.y` gains 1.5 if and only if the moved bottom edge plus `velocity.y` is at most the canvas height, and is unchanged otherwise; the sprite, crop width and width are unchanged |
| PlayerModel.Update | src/js/canvas.js:82-111 | after `update` the frame counter is within the range of the player's sprite, whatever it was before; the sprite is kept, and matching sprite metadata stays matching (the movement and gravity rule: `PlayerModel.UpdatePhysics`) |
| PlayerModel.CropOffset | src/js/canvas.js:67-70 | the crop x-offset is 0 at frame 0; with matching metadata and the counter in range it is a whole number of frame widths, between 0 and the last frame's offset on that sprite's sheet |
| PlayerModel.DrawCropWithinSheet | src/js/canvas.js:67-101 | the crop x-offset the draw call uses is between 0 and 177 x 59 for a stand sprite, and between 0 and 341 x 29 for a run sprite |
| Canvas.Player.constructor | src/js/canvas.js:25-64 | the constructed player's fields are those of `NewPlayer` |
| Canvas.Player.Update | src/js/canvas.js:82-111 | the in-place update leaves the player's fields equal to `PlayerModel.Update` of their old values, and returns the crop offset of the frame drawn |
| WorldModel.Layout | src/js/canvas.js:198-235 | there are exactly seven platforms: the first at y = 270 with the small-tall image's width, the other six at y = 470 with the ground image's width (every x coordinate: `WorldProperties.InitLayout`) |
| WorldModel.Backdrop | src/js/canvas.js:238-249 | there are exactly two background layers, both at (-1, -1) |
| WorldModel.Init | src/js/canvas.js:191-252 | `init` gives a new player and scroll offset 0, with 7 platforms and 2 background layers, and keeps the key flags and `currentKey` (the full layout: `WorldProperties.InitLayout`) |
| WorldModel.ResolveHorizontal | src/js/canvas.js:276-304 | horizontal resolution changes only the horizontal velocity, which becomes -10, 0 or 10; the scroll offset moves by -10, 0 or 10; it decreases only when left alone is held and the offset is positive, and increases only when right is held; keys and `currentKey` are unchanged (each branch exactly: `WorldProperties.HorizontalResolution`) |
| WorldModel.LandsOn | src/js/canvas.js:308-313 | the landing test can pass only for a player at rest or falling, never for one moving up |
| WorldModel.Collide | src/js/canvas.js:307-316 | the collision loop either returns the player unchanged or with only its vertical velocity set to 0; proving this needs the contract of each recursive call (when it fires: `WorldProperties.CollideIff`) |
| WorldModel.ResolveSprite | src/js/canvas.js:319-342 | sprite switching never moves the player or changes its velocity, and keeps the metadata matching the sprite (the transitions: `WorldProperties.SpriteResolution`) |
| WorldModel.BeforeLoseCheck | src/js/canvas.js:273-342 | the steps of a tick before the win and lose checks keep the key flags, `currentKey` and the number of platforms and layers; they leave the frame counter in range and matching metadata matching |
| WorldModel.Animate | src/js/canvas.js:255-353 | a tick never changes the key flags or `currentKey` (the lose and win checks: `WorldProperties.FallResets`, `WorldProperties.WinSignal`) |
| WorldModel.KeyDown | src/js/canvas.js:361-375 | keydown never changes the platforms, the background layers or the scroll offset, and never clears a pressed flag (each code exactly: `WorldProperties.KeyDownEffects`) |
| WorldModel.KeyUp | src/js/canvas.js:378-387 | keyup never changes `currentKey` or the player, and never sets a pressed flag (each code exactly: `WorldProperties.KeyUpEffects`) |
| WorldModel.InitialWorld | src/js/canvas.js:163-188 | at the first tick no key is held, `currentKey` is undefined, the scroll offset is 0 and the player is new |
| WorldModel.Step | src/js/canvas.js:255-387 | one event: a key event never moves the level or changes the scroll offset; a key release changes neither the player nor `currentKey` |
| WorldModel.Run | src/js/canvas.js:255-387 | a sequence of key events with no tick among them leaves the platforms, the background layers and the scroll offset as they were; proving this needs the contract of each recursive call |
| WorldProperties.ShiftPlatformsCompose | src/js/canvas.js:288-299 | shifting the platforms by d1 and then by d2 is the same as shifting them once by d1 + d2 |
| WorldProperties.ShiftObjectsCompose | src/js/canvas.js:291-302 | shifting the background layers by d1 and then by d2 is the same as shifting them once by d1 + d2 |
| WorldProperties.HorizontalResolution | src/js/canvas.js:276-304 | exactly one branch is taken. (a) Right held and x < 400: `velocity.x` = 10. (b) Otherwise left held and (x > 100, or offset 0 and x < 0): `velocity.x` = -10; in (a) and (b) the world is unchanged. (c) Otherwise `velocity.x` = 0, and: if right is held, the offset grows by 10, every platform x drops by 10 and every background x by 6.6; if left is held and the offset is positive, the mirror image; else nothing else changes |
| WorldProperties.HorizontalKeepsScroll | src/js/canvas.js:286-303 | from a non-negative multiple of 10, the scroll offset stays a non-negative multiple of 10, changes by at most 10, and cannot decrease from 0 |
| WorldProperties.CollideIff | src/js/canvas.js:307-316 | the in-order loop sets `velocity.y` to 0 if and only if some platform has: bottom edge at or above its top, bottom edge plus `velocity.y` at or below its top, and horizontal overlap; otherwise the player is unchanged, and positions are never changed |
| WorldProperties.LandingOnPlatform | src/js/canvas.js:308-314 | a player whose bottom edge reaches a platform's top this tick while overlapping it horizontally is left with vertical velocity 0 at the same position |
| WorldProperties.SpriteResolution | src/js/canvas.js:319-342 | sprite switching: keeps position and velocity; keeps metadata matching and the frame counter in range; sets frames to 1 exactly when `currentKey` names a direction whose run sprite is not already shown, and keeps them in every other case; `currentKey` right gives run-right if right is held and stand-right if not, the mirror for left; undefined `currentKey` changes nothing |
| WorldProperties.RevertKeepsFrames | src/js/canvas.js:333-341 | reverting from run-right to stand-right, or from run-left to stand-left, when the current direction's key is released only swaps the sprite metadata and leaves the frame counter as it was |
| WorldProperties.FallResets | src/js/canvas.js:349-352 | when the tick leaves the player below the canvas, the next state is exactly `init`'s result with the same key flags and `currentKey`; otherwise the lose check changes nothing |
| WorldProperties.WinSignal | src/js/canvas.js:344-347 | the win signal is raised if and only if the scroll offset after this tick's scrolling exceeds 5W + 298; without a reset it is the same test on the next state's offset (that the flag changes no state: `WorldProperties.FallResets`) |
| WorldProperties.TickSpriteFollowsKeys | src/js/canvas.js:319-352 | after a tick: a reset shows stand-right at frame 0; with `currentKey` right, the sprite is run-right if right is still held and there was no reset, and stand-right otherwise; with `currentKey` left and no reset, run-left if left is held, stand-left if not |
| WorldProperties.StandAnimationFrozen | src/js/canvas.js:319-336 | with `currentKey` set and its key released, a standing player ends every tick that does not reset standing at frame 1, so the next draw crops at 2 x 177 |
| WorldProperties.InitLayout | src/js/canvas.js:191-252 | `init` result: player at (100, 100) with velocity (0, 0), stand-right, frame 0, matching metadata. Platforms: the small-tall one at (4W + 298 + W - Ws, 270), then ground platforms at y = 470 and x = -1, W - 3, 2W + 100, 3W + 300, 4W + 298, 5W + 698. Two layers at (-1, -1). Offset 0; keys and `currentKey` kept |
| WorldProperties.KeyDownEffects | src/js/canvas.js:361-375 | keydown 65 sets the left flag and `currentKey` left; 68 sets the right flag and `currentKey` right; 87 subtracts 25 from `velocity.y`; nothing else changes, and other codes change nothing |
| WorldProperties.KeyUpEffects | src/js/canvas.js:378-387 | keyup 65 or 68 clears only the matching flag and never `currentKey`; other codes change nothing |
| WorldProperties.InitConsistent | src/js/canvas.js:191-252 | the state `init` builds satisfies every invariant: scroll offset, player band, sprite metadata and frame range, level placement |
| WorldProperties.HorizontalConsistent | src/js/canvas.js:276-304 | horizontal resolution preserves the scroll invariant and the level placement, and sets a walking velocity only toward the inside of the band |
| WorldProperties.AnimateConsistent | src/js/canvas.js:255-353 | a tick preserves every invariant |
| WorldProperties.StepConsistent | src/js/canvas.js:255-387 | a tick or a key event preserves every invariant |
| WorldProperties.RunAppend | src/js/canvas.js:255-387 | delivering two event sequences one after the other gives the same state as delivering their concatenation |
| WorldProperties.RunConsistent | src/js/canvas.js:255-387 | any sequence of ticks and key events preserves every invariant |
| WorldProperties.ReachableStates | src/js/canvas.js:188-387 | every state reachable from the start is `Consistent`, so the lemmas that require it apply there: the scroll offset is a non-negative multiple of 10; 90 < x < 410; the sprite metadata and frame counter agree with the sprite; every platform sits at its layout position minus the scroll offset, and every background layer at -1 - 0.66 x the offset; a walking velocity points only toward the inside of the band |
| WorldProperties.WalkLeftOfOriginUnreachable | src/js/canvas.js:279 | in a reachable state the player's x after the next update is never below 0, so the second walk-left condition never holds |
| WorldProperties.WinAtLastPlatform | src/js/canvas.js:345 | in a reachable state the win condition holds exactly when the last ground platform's left edge has scrolled left of x = 400 |
| Canvas.World.constructor | src/js/canvas.js:163-188 | after module set-up and the first `init`, the world's state is `InitialWorld`: no keys held and `currentKey` undefined |
| Canvas.World.Init | src/js/canvas.js:191-252 | rebuilds the player and both arrays as fresh objects; the new state is `WorldModel.Init` of the old keys and `currentKey` |
| Canvas.World.MovePlatforms | src/js/canvas.js:288-290 | the in-place loop adds dx to every platform's x and changes nothing else |
| Canvas.World.MoveGenericObjects | src/js/canvas.js:291-293 | the in-place loop adds dx to every background layer's x and changes nothing else |
| Canvas.World.ResolveHorizontalInput | src/js/canvas.js:276-304 | the branch code leaves the world in `ResolveHorizontal` of its old state |
| Canvas.World.ResolveCollisions | src/js/canvas.js:307-316 | the forEach loop leaves the player in `Collide` of its old state over the platforms |
| Canvas.World.ResolveSpriteState | src/js/canvas.js:319-342 | the branch code leaves the player in `ResolveSprite` of its old state |
| Canvas.World.Animate | src/js/canvas.js:255-353 | one tick leaves the world in the state `WorldModel.Animate` gives, and returns its win flag |
| Canvas.World.KeyDown | src/js/canvas.js:361-375 | the keydown handler leaves the world in `WorldModel.KeyDown` of its old state, on the same objects |
| Canvas.World.KeyUp | src/js/canvas.js:378-387 | the keyup handler leaves the world in `WorldModel.KeyUp` of its old state, on the same objects |

## Left out

- Drawing. The canvas clear, the `drawImage` calls of the platforms and background layers, and `fillStyle` are rendering side effects. Of the player's `draw`, only the crop x-offset it computes is kept; `Player.Update` returns it.
- Image loading. The image widths are fixed values in `Assets`. Two effects are not modelled. The first is the decode race: `init` re-creates the platform image (line 193) and reads its width at once, and the small-tall platform takes its x (line 200) from the module-level small-tall image of line 164 but its own width from a fresh image created at line 202; the model uses the one value `platformSmallTallWidth` for both. The second is the images' heights, which no logic reads. The player's `image` field (line 43) is never read by the loop and is left out too.
- Scheduling. `requestAnimationFrame` and `addEventListener` are left out: ticks and key events are explicit method calls, and `WorldModel.Run` applies any sequence of them.
- Logging. `console.log('You win!')` becomes the returned win flag.
- Floating point. Coordinates are exact rationals, so for example 10 x 0.66 is exactly 6.6. The model claims no bit-level agreement with IEEE-754 doubles.
- Object identity. Platforms and background layers are values stored in arrays that the loops update in place. The source's objects are never shared or compared, so nothing observable is lost.
- Frame-rate dependence. Gravity 1.5 and the jump impulse 25 are per-tick constants, as in the source; the tick rate of the host is not modelled.
- The webpack bundle `dist/js/canvas.bundle.js`. It is module plumbing plus a transpiled copy of the same logic.
- WorldModel.Layout: its own contract gives only the count, y coordinates and widths of the platforms; the x coordinates are stated in `WorldProperties.InitLayout`.
- WorldModel.Init: its own contract is a summary; the full layout is stated in `WorldProperties.InitLayout`.
- WorldModel.ResolveHorizontal: its own contract bounds the changes; the exact branches are stated in `WorldProperties.HorizontalResolution`.
- WorldModel.Collide: its own contract says what may change; when the velocity is zeroed is stated in `WorldProperties.CollideIff`.
- WorldModel.ResolveSprite: its own contract covers position, velocity and metadata; the transitions are stated in `WorldProperties.SpriteResolution`.
- WorldModel.Animate: its own contract covers only the keyboard state; the win and lose checks are stated in `WorldProperties.WinSignal` and `WorldProperties.FallResets`.
- WorldModel.KeyDown: its own contract is a summary; each key code's effect is stated in `WorldProperties.KeyDownEffects`.
- WorldModel.KeyUp: its own contract is a summary; each key code's effect is stated in `WorldProperties.KeyUpEffects`.
