# Pong simulation core in Dafny

A model of the per-tick rules of a small two-paddle Pong game with goal zones. The
model covers:

- the arena's walls and goals;
- the paddles' geometry and the vertical range they are kept in;
- the player's keyboard controller;
- the enemy's two-state sweeping controller;
- the ball's collision response and scoring;
- the startup state that ties these together.

Coordinates are `real`. Every step is a pure function over explicit state.

Modules follow the game's files:

- `Geometry`: vectors, transforms, boxes, and `f32::clamp` as `Clamp`.
- `Wrappers`: `Option`.
- `Board`: `src/board.rs`.
- `Paddle`: `src/paddle.rs`. It also holds the paddle range's bounds. `src/player.rs` and `src/enemy.rs` compute these bounds with the same formula, so they are defined once here.
- `Player`: `src/player.rs`.
- `Enemy`: `src/enemy.rs`.
- `Score`: the `Scoreboard` resource of `src/scoreboard.rs`.
- `Ball`: `src/ball.rs`.
- `Game`: the world after startup, the collider set, and the three systems.

The engine's box classifier `collide` is a function-typed parameter, `Ball.Collide`.
The collision loop is a fold over a sequence of colliders. It threads the ball and the
scoreboard through the fold, so a collider reached after a goal sees the ball already
reset. Both a recursive function (`Ball.CheckForCollisions`) and a loop that mirrors the
game's `for` (`Ball.CheckForCollisionsLoop`) are given, and they are proved equal.

The reset velocity is `INITIAL_BALL_DIRECTION.normalize() * BALL_SPEED`, which equals
(200·√2, −200·√2). These components are irrational, so the collision system takes the
vector as a parameter `v0`. The ghost predicate `Ball.IsInitialVelocity` describes it,
and a lemma proves that at most one vector fits the description. Another lemma shows
that, for a `v0` meeting it, a goal leaves the ball moving at exactly `BallSpeed`.

Three behaviours of the code are easy to misread, and the model keeps each as written:

- A `Right` collision reflects the ball when its x velocity is negative
  (src/ball.rs:98). The ball has hit the collider's right face and is moving left into it.
- After a goal, the loop continues with the next collider instead of stopping (src/ball.rs:87). Later
  colliders see the reset ball, and a second goal in the same tick scores again.
- The enemy records its flip at the bound, but the flip only shows on the next tick
  (src/enemy.rs:72-75, 82).
  The tick that records it still moves the paddle in the old direction, and the clamp
  keeps it at the bound.

## Model

| member | source | states |
|---|---|---|
| Geometry.Clamp | src/player.rs:58-61 | the clamped height always lies within [lo, hi]; it is the value itself when already inside, else the nearer bound; lo ≤ hi is demanded as the float clamp does |
| Board.ArenaHeight | src/board.rs:68-70 | the arena height is 500, so the game's positivity assert cannot fire |
| Board.ArenaWidth | src/board.rs:69-71 | the arena width is 900, so the game's positivity assert cannot fire |
| Board.WallPosition | src/board.rs:58-65 | the side walls are centred at mid-height and the top and bottom walls at mid-width; the left and bottom walls lie on the negative side of their axis and the right and top walls on the positive side (exact values in Board.WallGeometry) |
| Board.WallSize | src/board.rs:67-81 | every wall has strictly positive width and height |
| Board.GoalSize | src/board.rs:134-136 | every goal has strictly positive width and height |
| Board.GoalPosition | src/board.rs:127-132 | each goal is centred exactly where the side wall it is set into is centred |
| Board.NewWall | src/board.rs:85-92 | a wall's sprite sits exactly at its location's position (depth 0) and is scaled exactly to its size (depth scale 1) |
| Board.NewGoal | src/board.rs:140-157 | a goal's sprite sits at its position with its size, and carries the owner it was given |
| Board.WallGeometry | src/board.rs:58-81 | the side walls are centred at (∓450, 0) with size (10, 510); the top and bottom walls at (0, ±250) with size (910, 10) |
| Board.GoalGeometry | src/board.rs:134-136 | every goal measures (15, 165), whichever side it is on |
| Board.BoardMirrors | src/board.rs:58-65 | the left wall and goal mirror the right ones, and the bottom wall mirrors the top one, in both position and size |
| Board.WallsCloseArena | src/board.rs:73-80 | the walls form a closed frame: side walls reach exactly to the outer edges of top and bottom walls, and those exactly to the outer faces of the side walls |
| Board.GoalsSetIntoSideWalls | src/board.rs:127-136 | each goal is centred on its side wall, sticks out of it on both faces, and its opening lies strictly between the inner faces of top and bottom walls |
| Board.SetupOwners | src/board.rs:34-42 | startup spawns the four walls and two goals; the goal at the left wall is exactly the player's and the one at the right wall exactly the enemy's |
| Paddle.Position | src/paddle.rs:51-56 | a paddle spawns at mid-height, exactly one gap (60) inside the side wall on its own side, strictly between the side walls |
| Paddle.Size | src/paddle.rs:58-60 | every paddle has strictly positive width and height |
| Paddle.NewPaddle | src/paddle.rs:31-47 | a paddle sprite is placed exactly at its location's position and scaled exactly to its size |
| Paddle.TopBound | src/enemy.rs:66 | the top bound is 185, where a paddle's top edge meets the top wall's inner face |
| Paddle.BottomBound | src/enemy.rs:67 | the bottom bound is −185, where a paddle's bottom edge meets the bottom wall's inner face |
| Paddle.BoundsOrdered | src/player.rs:47-48 | the paddle range is non-empty and symmetric, so the clamp never panics |
| Paddle.PaddleGeometry | src/paddle.rs:50-61 | the paddles are centred at (−390, 0) and (390, 0), mirror each other and measure (40, 120) |
| Paddle.PaddleInsideArena | src/paddle.rs:51-56 | each paddle's centre is strictly between the side walls, its box stays clear of both goals, and its spawn height is in the paddle range |
| Player.NewPlayer | src/player.rs:31-37 | the player's paddle spawns in the left column at a height inside the paddle range |
| Player.Direction | src/player.rs:50-56 | the direction is +1 exactly when Up is held (whatever Down is), −1 exactly when only Down is held, 0 exactly when neither is |
| Player.MovePlayer | src/player.rs:40-62 | only the paddle's height changes; it ends in the paddle range for every key state and duration; Up never lowers and Down never raises an in-range paddle; no key leaves an in-range paddle as it is; a tick that stays in range moves the paddle by exactly direction × 700 × duration |
| Player.HoldingReachesBound | src/player.rs:58-61 | a tick long enough to reach the top (with Up) or the bottom (with only Down) leaves the paddle exactly on that bound |
| Player.NoKeyIdempotent | src/player.rs:55-61 | with no key held, a second tick of any duration changes nothing after the first |
| Player.UpMonotoneInDuration | src/player.rs:58-61 | with Up held, a longer tick never leaves the paddle lower than a shorter one |
| Player.Stateless | src/player.rs:22-23 | the new height depends only on the old height, the keys and the duration |
| Player.RunStaysInBounds | src/player.rs:45-61 | from its spawn, the player's paddle stays in range, on its column and at its size over any run of inputs |
| Enemy.Sample | src/enemy.rs:37-44 | a draw of 0 gives Up and every other draw gives Down |
| Enemy.NewEnemy | src/enemy.rs:52-61 | the enemy's paddle spawns on the right inside the paddle range, sweeping Up exactly when the draw is 0 |
| Enemy.Sign | src/enemy.rs:69-84 | the movement sign is +1 exactly for a tick that starts sweeping Up and −1 exactly for one that starts sweeping Down |
| Enemy.MoveEnemy | src/enemy.rs:63-90 | only the height is written and it ends in range; Up flips to Down exactly when the tick starts at the top bound, and Down to Up exactly at the bottom bound; an in-range paddle never moves against its starting direction; a tick that would overshoot the bound it is sweeping toward lands exactly on that bound; a tick that stays in range, from any start including a bound, moves the paddle by exactly its starting sign × 330 × duration |
| Enemy.FlipTakesEffectNextTick | src/enemy.rs:69-84 | a paddle reaching a bound stays there for one more tick with its direction flipped, and only the following tick moves it away |
| Enemy.FreeSweep | src/enemy.rs:86-89 | away from the bounds an unclamped tick moves the paddle by exactly speed × duration in the starting direction and keeps that direction |
| Enemy.RunStaysInBounds | src/enemy.rs:86-89 | from its spawn, the enemy's paddle stays in range, on its column and at its size over any run of tick durations |
| Score.Initial | src/scoreboard.rs:13-16 | the game starts with no points on the board |
| Ball.InitialVelocityUnique | src/ball.rs:70 | the normalised initial direction scaled to the ball's speed is a single well-defined vector |
| Ball.GoalRestoresSpeed | src/ball.rs:70 | when the reset velocity is the normalised initial direction times the speed, a goal leaves the ball moving at exactly that speed, rightward and downward at 45 degrees |
| Ball.NewBall | src/ball.rs:40-49 | the ball spawns at the starting position with size 30 × 30 and the initial velocity |
| Ball.Reflect | src/ball.rs:90-112 | after a non-goal hit the ball no longer moves into the face it hit; its velocity is unchanged exactly when it was not moving into that face; each component is kept or negated, and at most one changes |
| Ball.ReflectIdempotent | src/ball.rs:94-102 | reflecting twice on the same hit equals reflecting once |
| Ball.CornerReversesBall | src/ball.rs:104-112 | a ball moving into both a left and a top face in one tick is reversed on both axes |
| Ball.CreditOpponent | src/ball.rs:74-85 | a goal owned by the player adds exactly one to the enemy's score and leaves the player's score unchanged; an enemy-owned goal does the reverse |
| Ball.Resolve | src/ball.rs:62-113 | no hit changes nothing; a goal hit resets x and y to the start, keeps z and size, sets the initial velocity without any reflection and credits the owner's opponent; any other hit moves nothing, scores nothing and only reflects |
| Ball.NonGoalIdempotent | src/ball.rs:91-112 | processing the same non-goal collider twice in a row equals processing it once |
| Ball.CheckForCollisions | src/ball.rs:52-115 | over a tick the ball's size and depth never change and neither score decreases; with no goal colliders, the position and scores are unchanged and each velocity component is kept or negated |
| Ball.ScoresCountGoals | src/ball.rs:61-114 | over a tick, the enemy's score rises by exactly the goals scored against the player, the player's by those against the enemy, and the total by their sum |
| Ball.GoalsAgainstBounded | src/ball.rs:61-88 | each goal collider scores at most once per tick |
| Ball.BallPositionAfterTick | src/ball.rs:69-88 | after a tick with a goal the ball ends at the start position; after a tick without one it is where it was |
| Ball.CheckForCollisionsLoop | src/ball.rs:56-115 | the collision loop computes the same state as the fold and adds to each score exactly the goals scored against the other side |
| Game.Setup | src/board.rs:26-31 | the world at startup has both paddles in range on their columns, nothing on the scoreboard, and the ball at the start with the initial velocity |
| Game.Colliders | src/ball.rs:54 | the colliders the ball is checked against are the four walls, the two goals and the two paddles at their current heights, and only the two goals carry a goal component |
| Game.GoalsGuardOwnersSides | src/board.rs:40-41 | exactly one goal collider per owner exists, each set into the wall on the side of the paddle its owner controls |
| Game.GoalCreditsAttacker | src/ball.rs:74-85 | a hit on the left goal, which the player defends, credits the enemy; a hit on the right goal credits the player |
| Game.PlayerSystem | src/player.rs:61 | the player's system keeps the world invariant and touches nothing but the player's paddle |
| Game.EnemySystem | src/enemy.rs:89 | the enemy's system keeps the world invariant and touches nothing but the enemy's paddle and controller |
| Game.CollisionSystem | src/ball.rs:52-61 | the collision system, over the colliders in any order, keeps the invariant, leaves the paddles alone and raises the total score by the goals scored |

## Left out

- Ball movement (`apply_velocity`, in `src/velocity.rs`) and the `Collider` marker (`src/collider.rs`) are not part of this model. The ball's position reaches the collision system as given.
- The engine's box classifier `collide` is a parameter. Its tie-breaking between sides is not modelled.
- The reset velocity is the parameter `v0`, because normalising needs a square root. `Ball.IsInitialVelocity` describes it, but the systems do not require it.
- Single-precision rounding, NaN and infinities are not modelled. Coordinates are `real`. Under `real` the enemy's exact-equality bound check stays faithful, because the clamp returns the bound exactly.
- Geometry.Clamp: requires lo ≤ hi, where the float clamp panics instead. The paddle bounds always satisfy it.
- Ball.CreditOpponent: the counters are unbounded `nat`. The game's `usize` counters would overflow only after 2^64 − 1 goals.
- Enemy.Sample: accepts any draw, while the random generator only yields 0 or 1. Where the draw comes from is a parameter.
- Scheduling is not modelled. The `FixedUpdate` systems run in an order the game leaves to the engine, so each system is shown to keep the world invariant on its own.
- Engine queries are not modelled. `single_mut` panics without exactly one match, which this model rules out by construction. A query's iteration order is any permutation of the colliders.
- Presentation is not modelled. This covers sprite colours, meshes, the background colour, the score text, `update_scoreboard`, the camera (`src/lib.rs`), and `main` with its exit-on-escape binding (`src/main.rs`).
- Only one- and two-tick behaviour of the enemy is proved (range, flip, dwell at a bound, free sweep). The periodic up-and-down path over many ticks is not stated.
- Sprite rotation is left out, because no entity is ever rotated.
