/**
 The enemy's paddle: a two-state controller that sweeps the paddle up and down between
 the paddle range's bounds (src/enemy.rs).
 */
module Enemy {

  import opened Geometry
  import Paddle

  const MovementSpeed: real := 330.0

  datatype EnemyDirection = Up | Down

  /** The controller's single piece of state: the direction it is sweeping in. */
  datatype EnemyController = EnemyController(direction: EnemyDirection)

  /** The enemy entity: its paddle's transform and its controller. */
  datatype Enemy = Enemy(paddle: Transform, controller: EnemyController)

  /** Drawing a direction: the random generator yields 0 or 1; 0 means Up and any other
      value Down. */
  function Sample(draw: nat): (d: EnemyDirection)
    ensures d == Up <==> draw == 0
  {
    match draw
    case 0 => Up
    case _ => Down
  }

  /** The enemy's paddle spawns on the right, sweeping in a randomly drawn direction. */
  function NewEnemy(draw: nat): (e: Enemy)
    ensures Truncate(e.paddle.translation) == Paddle.Position(Paddle.PaddleLocation.Right)
    ensures Paddle.InBounds(e.paddle.translation.y)
    ensures e.controller.direction == Up <==> draw == 0
  {
    Enemy(Paddle.NewPaddle(Paddle.PaddleLocation.Right), EnemyController(Sample(draw)))
  }

  /** The sign of this tick's movement for the direction held at the start of the tick. */
  function Sign(d: EnemyDirection): (s: real)
    ensures s == 1.0 <==> d == Up
    ensures s == -1.0 <==> d == Down
  {
    match d
    case Up => 1.0
    case Down => -1.0
  }

  /** `move_enemy`: the paddle moves in the direction held at the START of the tick; if the
      paddle then sits exactly on the bound it is heading for, the stored direction is
      flipped, which only shows on the next tick. The height is clamped to the range. */
  function MoveEnemy(e: Enemy, dt: real): (r: Enemy)
    ensures r.paddle.translation.x == e.paddle.translation.x
    ensures r.paddle.translation.z == e.paddle.translation.z
    ensures r.paddle.scale == e.paddle.scale
    ensures Paddle.InBounds(r.paddle.translation.y)
    ensures e.controller.direction == Up
            ==> (r.controller.direction == Down <==> e.paddle.translation.y == Paddle.TopBound())
    ensures e.controller.direction == Down
            ==> (r.controller.direction == Up <==> e.paddle.translation.y == Paddle.BottomBound())
    ensures dt >= 0.0 && Paddle.InBounds(e.paddle.translation.y) && e.controller.direction == Up
            ==> r.paddle.translation.y >= e.paddle.translation.y
    ensures dt >= 0.0 && Paddle.InBounds(e.paddle.translation.y) && e.controller.direction == Down
            ==> r.paddle.translation.y <= e.paddle.translation.y
    ensures e.controller.direction == Up
            && e.paddle.translation.y + MovementSpeed * dt >= Paddle.TopBound()
            ==> r.paddle.translation.y == Paddle.TopBound()
    ensures e.controller.direction == Down
            && e.paddle.translation.y - MovementSpeed * dt <= Paddle.BottomBound()
            ==> r.paddle.translation.y == Paddle.BottomBound()
    ensures Paddle.InBounds(e.paddle.translation.y + Sign(e.controller.direction) * MovementSpeed * dt)
            ==> r.paddle.translation.y == e.paddle.translation.y + Sign(e.controller.direction) * MovementSpeed * dt
  {
    Paddle.BoundsOrdered();
    var topBound := Paddle.TopBound();
    var bottomBound := Paddle.BottomBound();
    var y := e.paddle.translation.y;
    var next :=
      match e.controller.direction
      case Up => if y == topBound then Down else Up
      case Down => if y == bottomBound then Up else Down;
    var newPosition := y + Sign(e.controller.direction) * MovementSpeed * dt;
    var t := e.paddle.translation;
    Enemy(e.paddle.(translation := Vec3(t.x, Clamp(newPosition, bottomBound, topBound), t.z)),
          EnemyController(next))
  }

  /** The flip is delayed by a tick: a paddle that reached the top while sweeping Up stays
      at the top for one more tick (now sweeping Down), and only the tick after that moves
      it down. The same holds at the bottom. */
  lemma FlipTakesEffectNextTick(e: Enemy, dt: real, dt': real)
    requires dt >= 0.0 && dt' > 0.0
    ensures e.controller.direction == Up && e.paddle.translation.y == Paddle.TopBound() ==>
              var once := MoveEnemy(e, dt);
              var twice := MoveEnemy(once, dt');
              once.paddle.translation.y == Paddle.TopBound() && once.controller.direction == Down
              && twice.paddle.translation.y < Paddle.TopBound() && twice.controller.direction == Down
    ensures e.controller.direction == Down && e.paddle.translation.y == Paddle.BottomBound() ==>
              var once := MoveEnemy(e, dt);
              var twice := MoveEnemy(once, dt');
              once.paddle.translation.y == Paddle.BottomBound() && once.controller.direction == Up
              && twice.paddle.translation.y > Paddle.BottomBound() && twice.controller.direction == Up
  {
  }

  /** Away from the bounds, an unclamped move displaces the paddle by exactly the speed
      times the duration, upward for Up and downward for Down, and keeps the direction. */
  lemma FreeSweep(e: Enemy, dt: real)
    requires dt >= 0.0
    requires Paddle.BottomBound() < e.paddle.translation.y < Paddle.TopBound()
    requires Paddle.InBounds(e.paddle.translation.y + Sign(e.controller.direction) * MovementSpeed * dt)
    ensures var r := MoveEnemy(e, dt);
            r.controller == e.controller
            && (e.controller.direction == Up ==> r.paddle.translation.y == e.paddle.translation.y + MovementSpeed * dt)
            && (e.controller.direction == Down ==> r.paddle.translation.y == e.paddle.translation.y - MovementSpeed * dt)
  {
  }

  /** The enemy after a run of ticks of the given durations. */
  function Run(e: Enemy, dts: seq<real>): Enemy
  {
    if |dts| == 0 then e else MoveEnemy(Run(e, dts[..|dts| - 1]), dts[|dts| - 1])
  }

  /** From its spawn, the enemy's paddle stays in range and on its column for any run of
      tick durations, whichever direction was drawn. */
  lemma {:induction false} RunStaysInBounds(draw: nat, dts: seq<real>)
    ensures var e := Run(NewEnemy(draw), dts);
            Paddle.InBounds(e.paddle.translation.y)
            && Truncate(e.paddle.translation).x == Paddle.Position(Paddle.PaddleLocation.Right).x
            && e.paddle.scale == NewEnemy(draw).paddle.scale
  {
    if |dts| > 0 {
      RunStaysInBounds(draw, dts[..|dts| - 1]);
    }
  }

}
