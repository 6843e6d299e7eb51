/**
 The player's paddle: a stateless keyboard controller (src/player.rs). Each tick the
 paddle's height moves by the pressed direction times the speed times the tick's
 duration, then is clamped to the paddle range.
 */
module Player {

  import opened Geometry
  import Paddle

  const MovementSpeed: real := 700.0

  /** Whether the Up and the Down arrow keys are held during this tick. */
  datatype Keys = Keys(up: bool, down: bool)

  /** The player's paddle spawns on the left. */
  function NewPlayer(): (t: Transform)
    ensures Truncate(t.translation) == Paddle.Position(Paddle.PaddleLocation.Left)
    ensures Paddle.InBounds(t.translation.y)
  {
    Paddle.NewPaddle(Paddle.PaddleLocation.Left)
  }

  /** Up wins over Down; no key gives no movement. */
  function Direction(keys: Keys): (d: real)
    ensures d == 1.0 <==> keys.up
    ensures d == -1.0 <==> !keys.up && keys.down
    ensures d == 0.0 <==> !keys.up && !keys.down
  {
    if keys.up then 1.0 else if keys.down then -1.0 else 0.0
  }

  /** `move_player`: only the paddle's height is written, and it always ends inside the
      paddle range, whatever the keys and the tick duration. */
  function MovePlayer(paddle: Transform, keys: Keys, dt: real): (r: Transform)
    ensures r.translation.x == paddle.translation.x && r.translation.z == paddle.translation.z
    ensures r.scale == paddle.scale
    ensures Paddle.InBounds(r.translation.y)
    ensures keys.up && dt >= 0.0 && Paddle.InBounds(paddle.translation.y)
            ==> r.translation.y >= paddle.translation.y
    ensures !keys.up && keys.down && dt >= 0.0 && Paddle.InBounds(paddle.translation.y)
            ==> r.translation.y <= paddle.translation.y
    ensures !keys.up && !keys.down && Paddle.InBounds(paddle.translation.y) ==> r == paddle
    ensures Paddle.InBounds(paddle.translation.y + Direction(keys) * MovementSpeed * dt)
            ==> r.translation.y == paddle.translation.y + Direction(keys) * MovementSpeed * dt
  {
    Paddle.BoundsOrdered();
    var topBound := Paddle.TopBound();
    var bottomBound := Paddle.BottomBound();
    var newPosition := paddle.translation.y + Direction(keys) * MovementSpeed * dt;
    var t := paddle.translation;
    paddle.(translation := Vec3(t.x, Clamp(newPosition, bottomBound, topBound), t.z))
  }

  /** Holding Up pins the paddle at the top once the tick is long enough to get there, and
      holding Down (alone) pins it at the bottom likewise. */
  lemma HoldingReachesBound(paddle: Transform, keys: Keys, dt: real)
    ensures keys.up && MovementSpeed * dt >= Paddle.TopBound() - paddle.translation.y
            ==> MovePlayer(paddle, keys, dt).translation.y == Paddle.TopBound()
    ensures !keys.up && keys.down && MovementSpeed * dt >= paddle.translation.y - Paddle.BottomBound()
            ==> MovePlayer(paddle, keys, dt).translation.y == Paddle.BottomBound()
  {
  }

  /** With no key pressed a second tick changes nothing more than the first. */
  lemma NoKeyIdempotent(paddle: Transform, dt: real, dt': real)
    ensures var once := MovePlayer(paddle, Keys(false, false), dt);
            MovePlayer(once, Keys(false, false), dt') == once
  {
    Paddle.BoundsOrdered();
    ClampIdempotent(paddle.translation.y, Paddle.BottomBound(), Paddle.TopBound());
  }

  /** The controller keeps no state: the new height depends only on the old height, the
      keys and the duration, never on anything else about the paddle. */
  /** A longer tick with Up held never leaves the paddle lower than a shorter one. */
  lemma UpMonotoneInDuration(paddle: Transform, dt: real, dt': real)
    requires dt <= dt'
    ensures MovePlayer(paddle, Keys(true, false), dt).translation.y
            <= MovePlayer(paddle, Keys(true, false), dt').translation.y
  {
    Paddle.BoundsOrdered();
    ClampMonotone(paddle.translation.y + MovementSpeed * dt, paddle.translation.y + MovementSpeed * dt',
                  Paddle.BottomBound(), Paddle.TopBound());
  }

  lemma Stateless(p: Transform, q: Transform, keys: Keys, dt: real)
    requires p.translation.y == q.translation.y
    ensures MovePlayer(p, keys, dt).translation.y == MovePlayer(q, keys, dt).translation.y
  {
  }

  /** The paddle after a run of ticks, each with its keys and duration. */
  function Run(paddle: Transform, ticks: seq<(Keys, real)>): Transform
  {
    if |ticks| == 0 then paddle
    else MovePlayer(Run(paddle, ticks[..|ticks| - 1]), ticks[|ticks| - 1].0, ticks[|ticks| - 1].1)
  }

  /** From the spawn position, the paddle stays in range and on its column for any run of
      inputs. */
  lemma {:induction false} RunStaysInBounds(ticks: seq<(Keys, real)>)
    ensures var p := Run(NewPlayer(), ticks);
            Paddle.InBounds(p.translation.y)
            && Truncate(p.translation).x == Paddle.Position(Paddle.PaddleLocation.Left).x
            && p.scale == NewPlayer().scale
  {
    if |ticks| > 0 {
      RunStaysInBounds(ticks[..|ticks| - 1]);
    }
  }

}
