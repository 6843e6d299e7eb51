/**
 The whole game state and what startup builds (src/board.rs, src/player.rs,
 src/enemy.rs, src/ball.rs, src/scoreboard.rs): two paddles, the ball, the scoreboard,
 and the colliders the ball is checked against. The engine runs the systems of a tick
 in an order the game does not fix, so each system is shown to keep the world's
 invariant on its own.
 */
module Game {

  import opened Geometry
  import opened Wrappers
  import Board
  import Paddle
  import Player
  import Enemy
  import Score
  import Ball

  datatype World = World(player: Transform, enemy: Enemy.Enemy, ball: Ball.BallState, scoreboard: Score.Scoreboard)

  /** Both paddles are on their own columns, keep their spawn sizes, and sit inside the
      paddle range. */
  predicate Invariant(w: World)
  {
    && w.player.translation.x == Paddle.Position(Paddle.PaddleLocation.Left).x
    && w.player.scale == Paddle.NewPaddle(Paddle.PaddleLocation.Left).scale
    && Paddle.InBounds(w.player.translation.y)
    && w.enemy.paddle.translation.x == Paddle.Position(Paddle.PaddleLocation.Right).x
    && w.enemy.paddle.scale == Paddle.NewPaddle(Paddle.PaddleLocation.Right).scale
    && Paddle.InBounds(w.enemy.paddle.translation.y)
  }

  /** The world after startup, for a drawn enemy direction and the ball's initial velocity. */
  function Setup(draw: nat, v0: Vec2): (w: World)
    ensures Invariant(w)
    ensures Score.Total(w.scoreboard) == 0
    ensures w.ball.transform.translation == Ball.BallStartingPosition && w.ball.velocity == v0
  {
    var player := Player.NewPlayer();
    var enemy := Enemy.NewEnemy(draw);
    assert player == Paddle.NewPaddle(Paddle.PaddleLocation.Left);
    assert enemy.paddle == Paddle.NewPaddle(Paddle.PaddleLocation.Right);
    World(player, enemy, Ball.NewBall(v0), Score.Initial())
  }

  /** A collider that is not a goal: a wall or a paddle. */
  function PlainCollider(t: Transform): Ball.Collider
  {
    Ball.Collider(t, None)
  }

  function GoalCollider(g: Board.GoalBundle): Ball.Collider
  {
    Ball.Collider(g.transform, Some(g.goal))
  }

  /** Every entity carrying a collider, in spawn order: the four walls, the two goals and
      the two paddles at their current heights. */
  function Colliders(w: World): (cs: seq<Ball.Collider>)
    ensures |cs| == 8
    ensures forall i :: 0 <= i < 4 ==> cs[i] == PlainCollider(Board.SetupWalls()[i])
    ensures forall i :: 4 <= i < 6 ==> cs[i] == GoalCollider(Board.SetupGoals()[i - 4])
    ensures cs[6] == PlainCollider(w.player) && cs[7] == PlainCollider(w.enemy.paddle)
    ensures forall i :: 0 <= i < 8 ==> (cs[i].goal.Some? <==> 4 <= i < 6)
  {
    seq(4, i requires 0 <= i < 4 => PlainCollider(Board.SetupWalls()[i]))
    + seq(2, i requires 0 <= i < 2 => GoalCollider(Board.SetupGoals()[i]))
    + [PlainCollider(w.player), PlainCollider(w.enemy.paddle)]
  }

  /** Exactly two colliders are goals, one per owner, each set into the wall on the side of
      the paddle its owner controls. */
  lemma GoalsGuardOwnersSides(w: World)
    requires Invariant(w)
    ensures Ball.OwnedGoals(Colliders(w), Board.Player) == 1
    ensures Ball.OwnedGoals(Colliders(w), Board.Enemy) == 1
    ensures forall c :: c in Colliders(w) && c.goal == Some(Board.Goal(Board.Player)) ==>
              c.transform.translation.x == Board.LeftWall && c.transform.translation.x < w.player.translation.x < 0.0
    ensures forall c :: c in Colliders(w) && c.goal == Some(Board.Goal(Board.Enemy)) ==>
              c.transform.translation.x == Board.RightWall && 0.0 < w.enemy.paddle.translation.x < c.transform.translation.x
  {
    var walls := seq(4, i requires 0 <= i < 4 => PlainCollider(Board.SetupWalls()[i]));
    var goals := seq(2, i requires 0 <= i < 2 => GoalCollider(Board.SetupGoals()[i]));
    var paddles := [PlainCollider(w.player), PlainCollider(w.enemy.paddle)];
    assert Colliders(w) == walls + goals + paddles;
    Board.SetupOwners();
    assert goals[0].goal == Some(Board.Goal(Board.Player));
    assert goals[1].goal == Some(Board.Goal(Board.Enemy));
    assert goals[..1] == [goals[0]];
    assert [goals[0]][..0] == [];
    assert paddles[..1] == [paddles[0]];
    assert [paddles[0]][..0] == [];
    forall owner: Board.GoalOwner
      ensures Ball.OwnedGoals(Colliders(w), owner) == 1
    {
      assert Ball.OwnedGoals([goals[0]], owner) == (if owner == Board.Player then 1 else 0);
      assert Ball.OwnedGoals(goals, owner) == 1;
      Ball.NoGoalsOwnNone(walls, owner);
      Ball.NoGoalsOwnNone(paddles, owner);
      Ball.OwnedGoalsAppend(walls, goals, owner);
      Ball.OwnedGoalsAppend(walls + goals, paddles, owner);
    }
  }

  /** A goal scored into the left goal, the one the player defends, goes to the enemy; one
      scored into the right goal goes to the player. */
  lemma GoalCreditsAttacker(s: Ball.Snapshot, g: Board.GoalBundle, collide: Ball.Collide, v0: Vec2)
    requires g in Board.SetupGoals()
    requires Ball.Probe(s.ball, GoalCollider(g), collide).Some?
    ensures var r := Ball.Resolve(s, GoalCollider(g), collide, v0);
            && (g.transform.translation.x == Board.LeftWall ==>
                  r.scoreboard.enemyScore == s.scoreboard.enemyScore + 1
                  && r.scoreboard.playerScore == s.scoreboard.playerScore)
            && (g.transform.translation.x == Board.RightWall ==>
                  r.scoreboard.playerScore == s.scoreboard.playerScore + 1
                  && r.scoreboard.enemyScore == s.scoreboard.enemyScore)
  {
    Board.SetupOwners();
  }

  /** The player's system: moves only the player's paddle. */
  function PlayerSystem(w: World, keys: Player.Keys, dt: real): (r: World)
    ensures Invariant(w) ==> Invariant(r)
    ensures r.enemy == w.enemy && r.ball == w.ball && r.scoreboard == w.scoreboard
  {
    w.(player := Player.MovePlayer(w.player, keys, dt))
  }

  /** The enemy's system: moves only the enemy's paddle and its controller. */
  function EnemySystem(w: World, dt: real): (r: World)
    ensures Invariant(w) ==> Invariant(r)
    ensures r.player == w.player && r.ball == w.ball && r.scoreboard == w.scoreboard
  {
    w.(enemy := Enemy.MoveEnemy(w.enemy, dt))
  }

  /** The collision system over the world's colliders in whatever order the engine yields
      them: it never touches a paddle, and the scoreboard total rises by the goals scored. */
  function CollisionSystem(w: World, cs: seq<Ball.Collider>, collide: Ball.Collide, v0: Vec2): (r: World)
    requires multiset(cs) == multiset(Colliders(w))
    ensures Invariant(w) ==> Invariant(r)
    ensures r.player == w.player && r.enemy == w.enemy
    ensures r.ball.transform.scale == w.ball.transform.scale
    ensures Score.Total(r.scoreboard) == Score.Total(w.scoreboard)
              + Ball.GoalsAgainst(Ball.Snapshot(w.ball, w.scoreboard), cs, collide, v0, Board.Player)
              + Ball.GoalsAgainst(Ball.Snapshot(w.ball, w.scoreboard), cs, collide, v0, Board.Enemy)
  {
    var s := Ball.CheckForCollisions(Ball.Snapshot(w.ball, w.scoreboard), cs, collide, v0);
    Ball.ScoresCountGoals(Ball.Snapshot(w.ball, w.scoreboard), cs, collide, v0);
    w.(ball := s.ball, scoreboard := s.scoreboard)
  }

}
