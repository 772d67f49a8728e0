# Tilt Maze / endless jumper core, in Dafny

This project models the game logic of a small libGDX game for Android (package
`com.example.tilt_maze`), with Dafny `real` in place of `float`:

- **PlatformManager** (module `Platforms`): the endless world generator. It keeps a list of
  platforms, a list of coins and a vertical frontier `nextPlatformY`.
  - `init` places the ground and a cushion of platforms up to two world heights.
  - `generateUpTo` spawns one platform per 120-unit step until the frontier reaches a target.
    Each platform carries a coin if the random draw says so.
  - `cleanupBelow` removes, in place and walking backwards, the platforms and coins that fell
    below a threshold.
  - The random source is an oracle `choose: nat -> Choice`: the k-th platform one call spawns
    takes its x and its coin draw from `choose(k)`.
  - A ghost invariant `Valid()` records that the frontier is origin + 120·k, where the origin is
    0 before init and 140 after. It also records that the platforms go bottom to top. The ground
    may only come first, and only once init has run. Every other platform is a spawned one, and
    the spawned platforms sit on consecutive steps ending one step below the frontier. While the
    ground is kept, no step is missing between it and the frontier.
- **Player** (module `Players`): one physics step. It steers sideways, wraps around the side
  edges and applies gravity. While falling, it lands on the first platform, in list order, whose
  top its bottom edge crossed and whose span strictly contains its centre. `Update` is proved equal to the pure `Step`, and the lemmas state
  what `Step` does.
- **InputManager** (module `Inputs`): the gyroscope steering filter. It is a leaky integrator
  bounded to ±3 and decayed by 0.99 each frame, with the steering output cut to [-1, 1].
- **Coin** (module `Coins`): radius ≤ 0 is the "collected" sentinel.
- **TiltMazeGame** (module `TiltMaze`): the accelerometer maze game.
  - The tilt reading goes through a rotation remap, a calibration offset, normalisation to g,
    a dead zone and a low-pass filter.
  - The circle/rectangle, border and goal tests.
  - Per-axis movement that undoes a move onto a wall.
  - The START/PLAY/GAME_OVER/GOAL state machine.
  - `Update` is proved equal to the pure `Advance` over a `Maze` snapshot.
  - The lemmas show that the border walls stop the ball exactly where the border test would
    fire. So, from the start position, no sequence of frames ever reaches GAME_OVER
    (`DefeatUnreachable`, with `StartBallClear` and the constructor).

Shared modules: `GameConfig` (the constant table of GameConfig.java), `Shapes` (`Rect`,
`Circle`, `Option`) and `MathUtils` (`Clamp`, `Abs`, and `SquareMonotone`, the fact that squaring is monotone on non-negative reals).

## Model

| member | source | states |
|---|---|---|
| Platforms.Frontier | core/src/main/java/com/example/tilt_maze/PlatformManager.java:60 | the frontier after k executions of `nextPlatformY += PLATFORM_STEP_Y`; FrontierClosedForm, FrontierAdd and FrontierAbove state its properties |
| Platforms.Spawned | core/src/main/java/com/example/tilt_maze/PlatformManager.java:43-45 | the 120 by 18 platform at height y and the draw's x; RowAt states where each one of a row lies |
| Platforms.CoinOver | core/src/main/java/com/example/tilt_maze/PlatformManager.java:47-50 | the coin circle centred over a platform, 26 above its top, radius 10; CoinRowOverRow gives it in numbers |
| Platforms.StepsTo | core/src/main/java/com/example/tilt_maze/PlatformManager.java:58-61 | the number of iterations of the generation loop: zero exactly when the frontier already reaches the target; the final frontier reaches the target; one step fewer is still below it |
| Platforms.BelowTarget | core/src/main/java/com/example/tilt_maze/PlatformManager.java:58 | the k-th frontier is below the target exactly when the loop runs more than k times |
| Platforms.StepsToExact | core/src/main/java/com/example/tilt_maze/PlatformManager.java:58-61 | the loop count is the unique n whose frontiers bracket the target |
| Platforms.GenerateUpToIdempotent | core/src/main/java/com/example/tilt_maze/PlatformManager.java:57-62 | generating again up to a target already reached spawns nothing |
| Platforms.FrontierClosedForm | core/src/main/java/com/example/tilt_maze/PlatformManager.java:27-37 | after k steps the frontier is origin + 120·k |
| Platforms.FrontierAdd | core/src/main/java/com/example/tilt_maze/PlatformManager.java:60 | a steps then b steps is a + b steps |
| Platforms.FrontierShift | core/src/main/java/com/example/tilt_maze/PlatformManager.java:60 | starting one step higher is taking one step more |
| Platforms.FrontierAbove | core/src/main/java/com/example/tilt_maze/PlatformManager.java:58-61 | the frontier never decreases |
| Platforms.CushionSteps | core/src/main/java/com/example/tilt_maze/PlatformManager.java:27-38 | init's cushion loop runs 13 times, from 140 up to two world heights, leaving the frontier at 1700 |
| Platforms.Row | core/src/main/java/com/example/tilt_maze/PlatformManager.java:58-61 | n iterations spawn exactly n platforms |
| Platforms.RowAt | core/src/main/java/com/example/tilt_maze/PlatformManager.java:43-45 | the k-th platform spawned is k steps above the old frontier, 120 by 18, at the k-th draw's x |
| Platforms.CoinRow | core/src/main/java/com/example/tilt_maze/PlatformManager.java:47-51 | a run of n spawns adds at most n coins |
| Platforms.CoinRowOverRow | core/src/main/java/com/example/tilt_maze/PlatformManager.java:47-50 | every coin added sits at (x + 60, y + 44) with radius 10 over a spawned platform whose draw asked for a coin |
| Platforms.CoinRowComplete | core/src/main/java/com/example/tilt_maze/PlatformManager.java:47-50 | conversely, every draw of a row that asks for a coin puts that coin over its platform into the coin row |
| Platforms.CoinRowAscending | core/src/main/java/com/example/tilt_maze/PlatformManager.java:47-50 | the coins added go bottom to top, all below the new frontier, so no platform carries two |
| Platforms.KeepPlatforms | core/src/main/java/com/example/tilt_maze/PlatformManager.java:68-73 | the platforms whose top is not below the threshold, in their original order; KeepPlatformsExactly, KeepPlatformsAppend and KeepPlatformsIdempotent state its properties |
| Platforms.KeepPlatformsExactly | core/src/main/java/com/example/tilt_maze/PlatformManager.java:68-73 | a platform survives cleanup exactly when it was present and its top is not below the threshold |
| Platforms.KeepPlatformsAppend | core/src/main/java/com/example/tilt_maze/PlatformManager.java:68-73 | the platform filter distributes over concatenation, so survivors keep their relative order |
| Platforms.KeepPlatformsIdempotent | core/src/main/java/com/example/tilt_maze/PlatformManager.java:68-73 | filtering the platforms twice gives what filtering once gives |
| Platforms.KeepPlatformsAscending | core/src/main/java/com/example/tilt_maze/PlatformManager.java:68-73 | cleanup keeps the platforms in bottom-to-top order |
| Platforms.KeepPlatformsSuffix | core/src/main/java/com/example/tilt_maze/PlatformManager.java:68-73 | when the tops ascend, cleanup keeps exactly the platforms from some index on: it only drops a bottom run |
| Platforms.KeepAllAbove | core/src/main/java/com/example/tilt_maze/PlatformManager.java:68-73 | a list whose tops are all at or above the threshold is kept whole |
| Platforms.Dropped | core/src/main/java/com/example/tilt_maze/PlatformManager.java:77 | the coin drop test: collected, or the top of the circle below the threshold; KeepByCircleExactly states what the filter does with it |
| Platforms.KeepByCircle | core/src/main/java/com/example/tilt_maze/PlatformManager.java:75-80 | the order-keeping filter of the coin loop, over the coins and their circles; KeepByCircleExactly, KeepByCircleAppend and KeepByCircleIdempotent state its properties |
| Platforms.KeepByCircleExactly | core/src/main/java/com/example/tilt_maze/PlatformManager.java:75-80 | a coin survives exactly when it was present and is not dropped by the coin test |
| Platforms.KeepCoinsExactly | core/src/main/java/com/example/tilt_maze/PlatformManager.java:75-80 | a coin survives cleanup exactly when it was present, is not collected and its top is not below the threshold |
| Platforms.KeepByCircleAppend | core/src/main/java/com/example/tilt_maze/PlatformManager.java:75-80 | the coin filter distributes over concatenation, so survivors keep their relative order |
| Platforms.KeepCoins | core/src/main/java/com/example/tilt_maze/PlatformManager.java:75-80 | the coins that are neither collected nor have their top below the threshold, in their original order; KeepCoinsExactly and KeepCoinsIdempotent state its properties |
| Platforms.KeepByCircleIdempotent | core/src/main/java/com/example/tilt_maze/PlatformManager.java:75-80 | a second pass of the coin filter over the survivors removes nothing |
| Platforms.KeepCoinsIdempotent | core/src/main/java/com/example/tilt_maze/PlatformManager.java:75-80 | filtering the coins twice gives what filtering once gives |
| Platforms.SpawnKeepsWorldInvariant | core/src/main/java/com/example/tilt_maze/PlatformManager.java:42-45 | spawning at the frontier with an x in [20, 340] and advancing one step keeps the world invariant, so the new platform sits on the step right after the previous one |
| Platforms.WorldLayout | core/src/main/java/com/example/tilt_maze/PlatformManager.java:35-38 | in a world, two consecutive spawned platforms are exactly 120 apart, and the topmost, if spawned, sits one step below the frontier |
| Platforms.GapIsNoWorld | core/src/main/java/com/example/tilt_maze/PlatformManager.java:58-61 | one concrete example of what WorldLayout excludes in general: platforms at 140 and 380 with the frontier at 500, missing the step at 260, are not a world |
| Platforms.GroundIsWorld | core/src/main/java/com/example/tilt_maze/PlatformManager.java:27-31 | the ground alone, with the frontier at 140 and no step taken, is a world |
| Platforms.WorldTopsAscend | core/src/main/java/com/example/tilt_maze/PlatformManager.java:68-73 | in a world the platform tops ascend too, the ground's top below every spawned platform's |
| Platforms.RowKeepsWorldInvariant | core/src/main/java/com/example/tilt_maze/PlatformManager.java:58-61 | a whole run of spawns keeps the world invariant, n steps on |
| Platforms.CleanupKeepsWorldInvariant | core/src/main/java/com/example/tilt_maze/PlatformManager.java:67-73 | cleanup with any threshold keeps the world invariant, because it only drops a bottom run of the platforms |
| Platforms.SplitAt | core/src/main/java/com/example/tilt_maze/PlatformManager.java:68-72 | removing index i from the partly filtered list leaves the untouched prefix before the kept suffix |
| Platforms.PlatformManager.constructor | core/src/main/java/com/example/tilt_maze/PlatformManager.java:13-19 | both lists empty and the frontier at 0 |
| Platforms.PlatformManager.Init | core/src/main/java/com/example/tilt_maze/PlatformManager.java:24-39 | the platforms are the ground (0, 80, 480, 20) followed by the 13 cushion platforms at 140, 260, …, 1580; the frontier is 1700; the coins are new objects, those of the cushion's draws, in order; the invariant holds |
| Platforms.PlatformManager.PlaceGround | core/src/main/java/com/example/tilt_maze/PlatformManager.java:25-31 | both lists cleared, the frontier at 140 and the ground as the only platform, and the invariant holds |
| Platforms.PlatformManager.CreatePlatformWithOptionalCoin | core/src/main/java/com/example/tilt_maze/PlatformManager.java:42-52 | appends the 120 by 18 platform at the draw's x and, exactly when the draw says so, one new coin over it at (x + 60, y + 44) with radius 10 |
| Platforms.PlatformManager.GenerateUpTo | core/src/main/java/com/example/tilt_maze/PlatformManager.java:57-62 | the frontier advances by exactly StepsTo steps; the old lists are prefixes of the new ones; the new platforms and coins are those of the row spawned from the old frontier, and the new coins are new objects; the invariant holds |
| Platforms.PlatformManager.SpawnUpTo | core/src/main/java/com/example/tilt_maze/PlatformManager.java:58-61 | the generation loop appends exactly the row and coin row of StepsTo draws from the old frontier, all coins new objects, and leaves the frontier StepsTo steps on |
| Platforms.PlatformManager.RowKeepsValid | core/src/main/java/com/example/tilt_maze/PlatformManager.java:58-61 | a state reached by a run of spawns from a valid state is valid |
| Platforms.PlatformManager.CleanupBelow | core/src/main/java/com/example/tilt_maze/PlatformManager.java:67-81 | the platforms and coins become exactly the filtered lists, in order; the frontier is unchanged; the invariant holds |
| Platforms.PlatformManager.RemovePlatformsBelow | core/src/main/java/com/example/tilt_maze/PlatformManager.java:68-73 | the backwards removal loop leaves exactly the filtered platforms and touches nothing else |
| Platforms.PlatformManager.RemoveCoinsBelow | core/src/main/java/com/example/tilt_maze/PlatformManager.java:75-80 | the backwards removal loop leaves exactly the filtered coins and touches nothing else |
| Coins.CollectedCircle | core/src/main/java/com/example/tilt_maze/Coin.java:16-18 | the collected test on a circle: radius at most 0; Coin.IsCollected, Collected and the coin filter are stated with it |
| Coins.Collected | core/src/main/java/com/example/tilt_maze/Coin.java:20-22 | collecting yields a collected circle with the same centre and radius 0 |
| Coins.CollectIdempotent | core/src/main/java/com/example/tilt_maze/Coin.java:20-22 | collecting twice is collecting once |
| Coins.Coin.IsCollected | core/src/main/java/com/example/tilt_maze/Coin.java:16-18 | a coin is collected exactly when its radius is at most 0; the constructor and Collect are stated with it |
| Coins.Coin.constructor | core/src/main/java/com/example/tilt_maze/Coin.java:12-18 | the circle is as given, and the coin is collected exactly when the radius is at most 0 |
| Coins.Coin.Collect | core/src/main/java/com/example/tilt_maze/Coin.java:20-22 | afterwards the coin is collected and only its radius changed |
| Coins.Circles | core/src/main/java/com/example/tilt_maze/PlatformManager.java:75-77 | the circles of a coin list, one per coin, in order |
| Players.WrapX | core/src/main/java/com/example/tilt_maze/Player.java:46-48 | an on-screen x is unchanged; fully past the left edge goes to 480; past the right edge goes to -width; the result lies in [-width, 480] |
| Players.Lands | core/src/main/java/com/example/tilt_maze/Player.java:59-63 | the landing test of one platform: the bottom edge was at or above its top, is now at or below it, and the centre lies strictly within its span; FirstLanding and LandsOnFirstCrossed use it |
| Players.FirstLanding | core/src/main/java/com/example/tilt_maze/Player.java:58-68 | the index found is a landing platform with no landing platform before it; none is found exactly when no platform qualifies |
| Players.FirstLandingIsFirst | core/src/main/java/com/example/tilt_maze/Player.java:58-67 | the first landing platform in list order is the one found |
| Players.MovedX | core/src/main/java/com/example/tilt_maze/Player.java:43-48 | the left edge after the horizontal move and the side wrap; WrapX states the wrap and StepKeepsShape its range |
| Players.Moved | core/src/main/java/com/example/tilt_maze/Player.java:43-53 | the player after the horizontal move and gravity, before any landing; RisingIgnoresPlatforms and NoLandingFreeFall state when it is the result of the frame |
| Players.Step | core/src/main/java/com/example/tilt_maze/Player.java:41-71 | one frame of update on values: the horizontal move with wrap, gravity, and, while falling, the snap to the first platform crossed; the lemmas below state its properties and Player.Update is proved equal to it |
| Players.StepKeepsShape | core/src/main/java/com/example/tilt_maze/Player.java:41-71 | a frame never changes width or height, a landing never changes x, and the new x lies in [-width, 480] |
| Players.RisingIgnoresPlatforms | core/src/main/java/com/example/tilt_maze/Player.java:51-56 | while still rising after gravity, the platforms play no part: the result is the free move |
| Players.LandsOnFirstCrossed | core/src/main/java/com/example/tilt_maze/Player.java:56-67 | a falling player whose first crossed platform is i ends on i's top, with vertical speed 550 and the moved x |
| Players.LandingWithinSweep | core/src/main/java/com/example/tilt_maze/Player.java:52-66 | the snapped y lies between the unsnapped new y and the old y, and the centre is over the platform landed on |
| Players.NoLandingFreeFall | core/src/main/java/com/example/tilt_maze/Player.java:50-70 | with no platform crossed, y moves by the new speed times dt and the speed is the old one plus gravity times dt |
| Players.Player.constructor | core/src/main/java/com/example/tilt_maze/Player.java:16-19 | the rectangle as given and vertical speed 550 |
| Players.Player.SetPosition | core/src/main/java/com/example/tilt_maze/Player.java:28-31 | only x and y change |
| Players.Player.SetVy | core/src/main/java/com/example/tilt_maze/Player.java:33 | only the vertical speed changes |
| Players.Player.Update | core/src/main/java/com/example/tilt_maze/Player.java:41-71 | the new rectangle and speed are Step of the old ones |
| Players.Player.CenterX | core/src/main/java/com/example/tilt_maze/Player.java:74 | the centre lies within the rectangle's span, at x plus the approximate radius |
| Players.Player.CenterY | core/src/main/java/com/example/tilt_maze/Player.java:75 | the centre lies within the rectangle's height, equally far from bottom and top |
| Players.Player.RadiusApprox | core/src/main/java/com/example/tilt_maze/Player.java:76 | twice the radius is the width, non-negative for a non-negative width |
| Inputs.TiltStep | core/src/main/java/com/example/tilt_maze/InputManager.java:20-27 | the tilt after a frame always lies in [-2.97, 2.97], and it is ±2.97 once the integrated tilt reaches ±3 |
| Inputs.Steering | core/src/main/java/com/example/tilt_maze/InputManager.java:30-32 | the output lies in [-1, 1]; it equals the tilt when the tilt is in [-1, 1], and is -1 or 1 beyond |
| Inputs.SteeringMonotone | core/src/main/java/com/example/tilt_maze/InputManager.java:30-32 | a larger tilt never steers less far right |
| Inputs.RestDecays | core/src/main/java/com/example/tilt_maze/InputManager.java:20-27 | with zero rotation rate, or with no time elapsed at any rate, the tilt becomes 0.99 of itself: it keeps its sign, shrinks strictly unless zero, and is zero only if it was |
| Inputs.DecayPowBounds | core/src/main/java/com/example/tilt_maze/InputManager.java:27 | the decay over n frames, 0.99^n, lies in (0, 1], strictly below 1 once a frame has passed |
| Inputs.RelaxClosedForm | core/src/main/java/com/example/tilt_maze/InputManager.java:20-27 | n frames at rest multiply the tilt by exactly 0.99^n |
| Inputs.RelaxTowardsCentre | core/src/main/java/com/example/tilt_maze/InputManager.java:20-27 | after n frames at rest the tilt is 0.99^n of what it was: it keeps its sign, never grows in magnitude, and a non-zero tilt ends strictly closer to 0 |
| Inputs.ResetStaysCentred | core/src/main/java/com/example/tilt_maze/InputManager.java:20-36 | after a reset, frames at rest keep the tilt at 0 and steer straight |
| Inputs.InputManager.constructor | core/src/main/java/com/example/tilt_maze/InputManager.java:11-13 | the tilt starts at 0 |
| Inputs.InputManager.ReadHorizontal | core/src/main/java/com/example/tilt_maze/InputManager.java:18-33 | the new tilt is TiltStep of the old one, and the result is its steering value |
| Inputs.InputManager.Reset | core/src/main/java/com/example/tilt_maze/InputManager.java:36 | the tilt becomes 0 |
| TiltMaze.Remap | core/src/main/java/com/example/tilt_maze/TiltMazeGame.java:96-118 | the rotation remap preserves the length of the tilt vector |
| TiltMaze.RemapSymmetries | core/src/main/java/com/example/tilt_maze/TiltMazeGame.java:98-118 | rotations 180 and 270 give the opposite of 0 and 90; any other rotation is treated as 0 |
| TiltMaze.DeadZone | core/src/main/java/com/example/tilt_maze/TiltMazeGame.java:129-130 | tilts below 0.05 g in magnitude become 0, the rest pass unchanged, and the magnitude never grows |
| TiltMaze.LowPass | core/src/main/java/com/example/tilt_maze/TiltMazeGame.java:133-134 | the filter moves 0.18 of the way to its input, stays between its old value and the input, and stays put exactly when they agree |
| TiltMaze.ReadTilt | core/src/main/java/com/example/tilt_maze/TiltMazeGame.java:87-138 | the tilt reading on values: only the two filters change, each by the low-pass step towards the dead-zoned, calibrated, g-normalised sample; TiltMazeGame.ReadTiltG is proved equal to it |
| TiltMaze.Calibrate | core/src/main/java/com/example/tilt_maze/TiltMazeGame.java:141-156 | calibration on values: the remapped sample becomes the zero and the filters restart; CalibratedReadsLevel states its effect |
| TiltMaze.CalibratedReadsLevel | core/src/main/java/com/example/tilt_maze/TiltMazeGame.java:87-155 | reading the sample just calibrated on gives the tilt (0, 0) |
| TiltMaze.FilterStaysInRange | core/src/main/java/com/example/tilt_maze/TiltMazeGame.java:133-134 | the filter never leaves a range holding both its value and its input |
| TiltMaze.CircleIntersectsRect | core/src/main/java/com/example/tilt_maze/TiltMazeGame.java:281-287 | the nearest point of the rectangle lies within the radius; IntersectsIffPointWithin states what that means |
| TiltMaze.ClampIsNearest | core/src/main/java/com/example/tilt_maze/TiltMazeGame.java:282-284 | on one axis the clamped coordinate is the nearest point of the interval |
| TiltMaze.ClosestIsNearest | core/src/main/java/com/example/tilt_maze/TiltMazeGame.java:281-286 | the clamped point is the point of the rectangle nearest to the centre |
| TiltMaze.IntersectsIffPointWithin | core/src/main/java/com/example/tilt_maze/TiltMazeGame.java:281-287 | the circle-rectangle test holds exactly when some point of the rectangle lies within the radius |
| TiltMaze.CentreInsideIntersects | core/src/main/java/com/example/tilt_maze/TiltMazeGame.java:281-287 | a circle whose centre is inside the rectangle intersects it |
| TiltMaze.TouchesBorder | core/src/main/java/com/example/tilt_maze/TiltMazeGame.java:289-292 | the ball reaches within 20 of an edge of the 800 by 480 world; ClearNeverTouchesBorder shows a ball clear of the walls never does |
| TiltMaze.Collides | core/src/main/java/com/example/tilt_maze/TiltMazeGame.java:276-279 | the circle intersects some wall of the list; TiltMazeGame.CollidesAny is proved equal to it |
| TiltMaze.OverlapsGoal | core/src/main/java/com/example/tilt_maze/TiltMazeGame.java:270-271 | the ball's bounding box overlaps the goal strictly on both axes; OverlapsGoalIffNear restates it as nearness of the centre |
| TiltMaze.OverlapsGoalIffNear | core/src/main/java/com/example/tilt_maze/TiltMazeGame.java:270-271 | the goal test holds exactly when the goal is closer than the radius on both axes |
| TiltMaze.Reset | core/src/main/java/com/example/tilt_maze/TiltMazeGame.java:294-298 | the reset on values: ball at (80, 240) radius 14, at rest, clock 0, everything else kept; TiltMazeGame.ResetGame is proved equal to it |
| TiltMaze.StartTouchStartsPlay | core/src/main/java/com/example/tilt_maze/TiltMazeGame.java:214-222 | START with a touch goes to PLAY with the ball at (80, 240) radius 14, at rest, clock 0, calibrated on the current sample |
| TiltMaze.EndTouchReturnsToStart | core/src/main/java/com/example/tilt_maze/TiltMazeGame.java:224-230 | GAME_OVER or GOAL with a touch goes to START with the ball reset and the calibration kept |
| TiltMaze.IdleWithoutTouch | core/src/main/java/com/example/tilt_maze/TiltMazeGame.java:214-230 | outside PLAY, a frame without a touch changes nothing |
| TiltMaze.Steer | core/src/main/java/com/example/tilt_maze/TiltMazeGame.java:243-252 | the filtered tilt is cut to [-1, 1]; each speed gains tilt times 1500 times dt and is then damped by 0.90; TiltMazeGame.PlayStep's speeds are proved to be these |
| TiltMaze.MoveX | core/src/main/java/com/example/tilt_maze/TiltMazeGame.java:254-260 | the horizontal move, clamped to the arena and undone with vx zeroed on a wall hit; MoveXRevertsOnCollision states it case by case |
| TiltMaze.MoveY | core/src/main/java/com/example/tilt_maze/TiltMazeGame.java:254-264 | the vertical move after the horizontal one, the same way; MoveYRevertsOnCollision states it case by case |
| TiltMaze.Judge | core/src/main/java/com/example/tilt_maze/TiltMazeGame.java:266-273 | the end-of-frame verdict: GOAL on a goal overlap, otherwise GAME_OVER on a border touch, otherwise unchanged; PlayFrameOutcome states it |
| TiltMaze.PlayFrame | core/src/main/java/com/example/tilt_maze/TiltMazeGame.java:233-273 | one PLAY frame on values: read the tilt, accelerate and damp, move on each axis with undo on a wall, advance the clock, judge goal and border; PlayFrameOutcome and the clearance lemmas state its properties |
| TiltMaze.Advance | core/src/main/java/com/example/tilt_maze/TiltMazeGame.java:210-274 | one frame of the state machine on values; the transition lemmas and DefeatUnreachable state its properties, and TiltMazeGame.Update is proved equal to it |
| TiltMaze.PlayFrameOutcome | core/src/main/java/com/example/tilt_maze/TiltMazeGame.java:233-273 | in PLAY the clock advances by dt and the radius stays; an overlap with the goal ends in GOAL even when the border is touched too; otherwise a border touch ends in GAME_OVER; otherwise play continues |
| TiltMaze.MoveXRevertsOnCollision | core/src/main/java/com/example/tilt_maze/TiltMazeGame.java:255-260 | a horizontal move onto a wall is undone and zeroes vx; otherwise x is the clamped target |
| TiltMaze.MoveYRevertsOnCollision | core/src/main/java/com/example/tilt_maze/TiltMazeGame.java:256-264 | a vertical move onto a wall is undone and zeroes vy; otherwise y is the clamped target |
| TiltMaze.StartBallClear | core/src/main/java/com/example/tilt_maze/TiltMazeGame.java:58-73 | the start ball lies in the world and overlaps none of the ten walls |
| TiltMaze.PlayFrameStaysInArena | core/src/main/java/com/example/tilt_maze/TiltMazeGame.java:259-264 | a ball centred in [14, 786] × [14, 466] stays there after a PLAY frame |
| TiltMaze.PlayFrameKeepsClear | core/src/main/java/com/example/tilt_maze/TiltMazeGame.java:255-264 | a PLAY frame keeps a ball that overlaps no wall free of every wall |
| TiltMaze.NearBorderWallIntersects | core/src/main/java/com/example/tilt_maze/TiltMazeGame.java:281-287 | a circle level with a wall and within its radius of it on the other axis intersects it |
| TiltMaze.ClearNeverTouchesBorder | core/src/main/java/com/example/tilt_maze/TiltMazeGame.java:289-292 | a ball clear of the maze never meets the border test, because the border walls are exactly as thick as its margin |
| TiltMaze.AdvanceKeepsClear | core/src/main/java/com/example/tilt_maze/TiltMazeGame.java:210-274 | every frame, in every state, keeps the ball clear of the maze |
| TiltMaze.NoDefeatFromClear | core/src/main/java/com/example/tilt_maze/TiltMazeGame.java:266-267 | with the ball clear of the maze, no frame ends in GAME_OVER |
| TiltMaze.DefeatUnreachable | core/src/main/java/com/example/tilt_maze/TiltMazeGame.java:210-274 | from a clear ball outside GAME_OVER, no sequence of frames ever reaches GAME_OVER |
| TiltMaze.TiltMazeGame.constructor | core/src/main/java/com/example/tilt_maze/TiltMazeGame.java:49-84 | the ten walls and the goal (700, 200, 60, 80); the ball at its start, at rest, state START; calibrated on the given sample |
| TiltMaze.TiltMazeGame.ReadTiltG | core/src/main/java/com/example/tilt_maze/TiltMazeGame.java:87-138 | the filters become ReadTilt of the old state, and the result is the new filter pair |
| TiltMaze.TiltMazeGame.CalibrateZero | core/src/main/java/com/example/tilt_maze/TiltMazeGame.java:141-156 | the zero becomes the remapped sample and the filters restart at 0 |
| TiltMaze.TiltMazeGame.ResetGame | core/src/main/java/com/example/tilt_maze/TiltMazeGame.java:294-298 | the ball is back at (80, 240) radius 14, at rest, clock 0 |
| TiltMaze.TiltMazeGame.CollidesAny | core/src/main/java/com/example/tilt_maze/TiltMazeGame.java:276-279 | true exactly when the circle intersects some wall |
| TiltMaze.TiltMazeGame.Update | core/src/main/java/com/example/tilt_maze/TiltMazeGame.java:210-274 | the new state is Advance of the old one |
| TiltMaze.TiltMazeGame.PlayStep | core/src/main/java/com/example/tilt_maze/TiltMazeGame.java:232-273 | the PLAY part of a frame leaves the state PlayFrame of the old one |
| TiltMaze.TiltMazeGame.Accelerate | core/src/main/java/com/example/tilt_maze/TiltMazeGame.java:246-252 | each speed gains tilt times 1500 times dt, then is damped by 0.90 |
| TiltMaze.TiltMazeGame.MoveBall | core/src/main/java/com/example/tilt_maze/TiltMazeGame.java:254-264 | the ball and speeds become the x move followed by the y move |
| MathUtils.Clamp | core/src/main/java/com/example/tilt_maze/TiltMazeGame.java:243-244 | the result lies in [min, max] and equals the value when the value is already inside |

## Left out

- Rendering, the HUD, the camera and `dispose` in TiltMazeGame.java have no logic to verify.
- Sensor and input reads become parameters: the accelerometer sample, the screen rotation, the
  gyroscope z rate, the touch flags and the frame time. In one maze frame, calibration and tilt
  reading see the same accelerometer sample. The z axis is never used.
- `Gdx.app.exit` on ESCAPE and `Gdx.app.log` are foreign calls with no effect on the model.
- `MathUtils.random` becomes the oracle `choose`. Its x may be anywhere in [20, 340]; the source's
  draw never yields 340 itself. The 0.40 coin probability is not modelled: the oracle's flag says
  whether a coin appears.
- Floats are reals, so IEEE rounding is not modelled.
- Init reuses GenerateUpTo for its cushion loop, whose text is the same loop. The loop of
  generateUpTo is the helper method `SpawnUpTo`. The two removal loops of cleanupBelow are
  separate helper methods, `RemovePlatformsBelow` and
  `RemoveCoinsBelow`. The PLAY part of the maze update is split the same way, into `PlayStep`,
  `Accelerate` and `MoveBall`.
- Player's getters and `getRect`, and PlatformManager's list getters, are field reads. The
  aliasing `getRect` allows is not modelled: platforms are values. Platform.java is otherwise
  the `Rect` datatype.
- GameConfig.java's constants are in `GameConfig`. `TargetCoins`, `CoinSpawnChance`,
  `PlatformSpawnAheadScreens` and `CleanupBelowScreens` are used by no modelled code; they
  belong to the endless-jumper game loop.
- The endless-jumper game loop is not modelled, because no file of the repository wires
  PlatformManager, Player and InputManager together. That loop would cover camera follow, coin
  pickup, the win at 15 coins and the loss below the camera.
- AndroidLauncher.java is launcher configuration only.
