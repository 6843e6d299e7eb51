/**
 The ball and the collision system (src/ball.rs). Each tick the ball is checked against
 every collider in turn; a goal resets the ball and scores for the side that does not
 own the goal, any other hit reflects the ball's velocity when it is moving into the
 surface it hit.
 */
module Ball {

  import opened Geometry
  import opened Wrappers
  import opened Board
  import opened Score

  const BallStartingPosition: Vec3 := Vec3(0.0, 0.0, 0.0)

  const BallSize: Vec3 := Vec3(30.0, 30.0, 0.0)

  const BallSpeed: real := 400.0

  const InitialBallDirection: Vec2 := Vec2(0.5, -0.5)

  /** The side of the collider the ball hit, as classified by the engine's box classifier. */
  datatype Collision = Left | Right | Top | Bottom | Inside

  /** The ball entity: its sprite transform (its scale is its size) and its velocity. */
  datatype BallState = BallState(transform: Transform, velocity: Vec2)

  /** What the collision system sees of a collider: its transform and, for a goal, the goal
      component. */
  datatype Collider = Collider(transform: Transform, goal: Option<Goal>)

  /** The part of the world the collision system writes. */
  datatype Snapshot = Snapshot(ball: BallState, scoreboard: Scoreboard)

  /** The engine's box classifier: ball position, ball size, collider position, collider
      size; `None` when the boxes do not overlap. Its definition is not part of this model. */
  type Collide = (Vec3, Vec2, Vec3, Vec2) -> Option<Collision>

  /** The velocity a ball is given at spawn and after every goal: the initial direction
      normalised and scaled to the ball's speed, so parallel to that direction, pointing
      the same way, and of length `BallSpeed`. Its components are irrational, so the
      systems below take it as the parameter `v0`. */
  ghost predicate IsInitialVelocity(v: Vec2)
  {
    && v.x * InitialBallDirection.y == v.y * InitialBallDirection.x
    && v.x * InitialBallDirection.x > 0.0
    && v.x * v.x + v.y * v.y == BallSpeed * BallSpeed
  }

  /** The description above pins down a single vector, so treating it as a parameter
      loses nothing. */
  lemma InitialVelocityUnique(v: Vec2, w: Vec2)
    requires IsInitialVelocity(v) && IsInitialVelocity(w)
    ensures v == w
  {
    assert v.y == -v.x && w.y == -w.x;
    assert v.x * v.x == w.x * w.x;
    assert (v.x - w.x) * (v.x + w.x) == 0.0;
  }

  /** When `v0` is the initial velocity, a goal leaves the ball moving at exactly the
      ball's speed, whatever its velocity was before. */
  lemma GoalRestoresSpeed(s: Snapshot, c: Collider, collide: Collide, v0: Vec2)
    requires IsInitialVelocity(v0)
    requires Probe(s.ball, c, collide).Some? && c.goal.Some?
    ensures var v := Resolve(s, c, collide, v0).ball.velocity;
            v.x * v.x + v.y * v.y == BallSpeed * BallSpeed
            && v.x > 0.0 && v.y == -v.x
  {
  }

  /** The ball as spawned: at the starting position, sized `BallSize`, moving at `v0`. */
  function NewBall(v0: Vec2): (b: BallState)
    ensures b.transform.translation == BallStartingPosition && b.velocity == v0
    ensures Truncate(b.transform.scale) == Vec2(30.0, 30.0)
  {
    BallState(Transform(BallStartingPosition, BallSize), v0)
  }

  /** True when the ball's velocity carries it into the face it hit: a hit on the left
      face while moving right, on the right face while moving left, on the top face while
      moving down, on the bottom face while moving up. A ball inside never is. */
  predicate MovingInto(v: Vec2, c: Collision)
  {
    match c
    case Left => v.x > 0.0
    case Right => v.x < 0.0
    case Top => v.y < 0.0
    case Bottom => v.y > 0.0
    case Inside => false
  }

  /** The reflection of a non-goal hit: a velocity moving into the face is negated on that
      face's axis; one moving away, or a ball inside, keeps its velocity. */
  function Reflect(v: Vec2, c: Collision): (r: Vec2)
    ensures !MovingInto(r, c)
    ensures r == v <==> !MovingInto(v, c)
    ensures r.x == v.x || r.x == -v.x
    ensures r.y == v.y || r.y == -v.y
    ensures r.x == v.x || r.y == v.y
  {
    var reflectX :=
      match c
      case Left => v.x > 0.0
      case Right => v.x < 0.0
      case _ => false;
    var reflectY :=
      match c
      case Top => v.y < 0.0
      case Bottom => v.y > 0.0
      case _ => false;
    Vec2(if reflectX then -v.x else v.x, if reflectY then -v.y else v.y)
  }

  /** Reflecting twice on the same hit is reflecting once, so a ball that stays in contact
      with a surface over several ticks does not stick to it. */
  lemma ReflectIdempotent(v: Vec2, c: Collision)
    ensures Reflect(Reflect(v, c), c) == Reflect(v, c)
  {
  }

  /** A corner hit that meets two faces in one tick, each while moving into it, reverses
      the ball completely. */
  lemma CornerReversesBall(v: Vec2)
    requires MovingInto(v, Collision.Left) && MovingInto(v, Collision.Top)
    ensures Reflect(Reflect(v, Collision.Left), Collision.Top) == Neg(v)
  {
  }

  /** A goal scores for the side that does not own it. */
  function CreditOpponent(s: Scoreboard, owner: GoalOwner): (r: Scoreboard)
    ensures owner == Player ==> r.enemyScore == s.enemyScore + 1 && r.playerScore == s.playerScore
    ensures owner == Enemy ==> r.playerScore == s.playerScore + 1 && r.enemyScore == s.enemyScore
    ensures Total(r) == Total(s) + 1
  {
    match owner
    case Player => s.(enemyScore := s.enemyScore + 1)
    case Enemy => s.(playerScore := s.playerScore + 1)
  }

  /** The engine's verdict on the ball against one collider. */
  function Probe(ball: BallState, c: Collider, collide: Collide): Option<Collision>
  {
    collide(ball.transform.translation, Truncate(ball.transform.scale),
            c.transform.translation, Truncate(c.transform.scale))
  }

  /** One iteration of the collision loop. A goal hit puts the ball back at the start
      (keeping its depth), gives it the initial velocity and scores for the opponent of the
      goal's owner, with no reflection; any other hit reflects; no hit changes nothing. */
  function Resolve(s: Snapshot, c: Collider, collide: Collide, v0: Vec2): (r: Snapshot)
    ensures r.ball.transform.scale == s.ball.transform.scale
    ensures r.ball.transform.translation.z == s.ball.transform.translation.z
    ensures Probe(s.ball, c, collide).None? ==> r == s
    ensures Probe(s.ball, c, collide).Some? && c.goal.Some? ==>
              && r.ball.velocity == v0
              && Truncate(r.ball.transform.translation) == Truncate(BallStartingPosition)
              && (c.goal.value.goalOwner == Player ==>
                    r.scoreboard.enemyScore == s.scoreboard.enemyScore + 1
                    && r.scoreboard.playerScore == s.scoreboard.playerScore)
              && (c.goal.value.goalOwner == Enemy ==>
                    r.scoreboard.playerScore == s.scoreboard.playerScore + 1
                    && r.scoreboard.enemyScore == s.scoreboard.enemyScore)
    ensures Probe(s.ball, c, collide).Some? && c.goal.None? ==>
              && r.ball.transform == s.ball.transform
              && r.scoreboard == s.scoreboard
              && r.ball.velocity == Reflect(s.ball.velocity, Probe(s.ball, c, collide).value)
  {
    match Probe(s.ball, c, collide)
    case None => s
    case Some(collision) =>
      match c.goal
      case Some(goal) =>
        var t := s.ball.transform.translation;
        var reset := Vec3(BallStartingPosition.x, BallStartingPosition.y, t.z);
        Snapshot(BallState(s.ball.transform.(translation := reset), v0),
                 CreditOpponent(s.scoreboard, goal.goalOwner))
      case None =>
        s.(ball := s.ball.(velocity := Reflect(s.ball.velocity, collision)))
  }

  /** Processing the same non-goal collider twice in a row is processing it once. */
  lemma NonGoalIdempotent(s: Snapshot, c: Collider, collide: Collide, v0: Vec2)
    requires c.goal.None?
    ensures Resolve(Resolve(s, c, collide, v0), c, collide, v0) == Resolve(s, c, collide, v0)
  {
    var once := Resolve(s, c, collide, v0);
    if Probe(s.ball, c, collide).Some? {
      assert Probe(once.ball, c, collide) == Probe(s.ball, c, collide);
      ReflectIdempotent(s.ball.velocity, Probe(s.ball, c, collide).value);
    }
  }

  predicate NoGoals(cs: seq<Collider>)
  {
    forall i :: 0 <= i < |cs| ==> cs[i].goal.None?
  }

  /** `check_for_collisions`: the colliders are processed one after another in the order
      the engine yields them, each seeing the ball as the previous ones left it. The ball's
      size and depth never change, scores only grow, and without goal colliders the
      ball's position and the scores stay put while its speed along each axis is kept. */
  function CheckForCollisions(s: Snapshot, cs: seq<Collider>, collide: Collide, v0: Vec2): (r: Snapshot)
    decreases |cs|
    ensures r.ball.transform.scale == s.ball.transform.scale
    ensures r.ball.transform.translation.z == s.ball.transform.translation.z
    ensures r.scoreboard.playerScore >= s.scoreboard.playerScore
    ensures r.scoreboard.enemyScore >= s.scoreboard.enemyScore
    ensures NoGoals(cs) ==> r.scoreboard == s.scoreboard && r.ball.transform == s.ball.transform
    ensures NoGoals(cs) ==>
              (r.ball.velocity.x == s.ball.velocity.x || r.ball.velocity.x == -s.ball.velocity.x)
              && (r.ball.velocity.y == s.ball.velocity.y || r.ball.velocity.y == -s.ball.velocity.y)
  {
    if |cs| == 0 then s
    else
      var before := CheckForCollisions(s, cs[..|cs| - 1], collide, v0);
      assert NoGoals(cs) ==> NoGoals(cs[..|cs| - 1]);
      Resolve(before, cs[|cs| - 1], collide, v0)
  }

  /** Whether the collider at the end of `cs` scores a goal against `owner` when reached. */
  predicate ScoresAtEnd(s: Snapshot, cs: seq<Collider>, collide: Collide, v0: Vec2, owner: GoalOwner)
    requires |cs| > 0
  {
    var before := CheckForCollisions(s, cs[..|cs| - 1], collide, v0);
    Probe(before.ball, cs[|cs| - 1], collide).Some? && cs[|cs| - 1].goal == Some(Goal(owner))
  }

  /** The number of colliders owned by `owner` that report a hit when the loop reaches them,
      so the number of goals scored against `owner` during the tick. */
  function GoalsAgainst(s: Snapshot, cs: seq<Collider>, collide: Collide, v0: Vec2, owner: GoalOwner): nat
    decreases |cs|
  {
    if |cs| == 0 then 0
    else GoalsAgainst(s, cs[..|cs| - 1], collide, v0, owner)
         + (if ScoresAtEnd(s, cs, collide, v0, owner) then 1 else 0)
  }

  /** The number of colliders in `cs` that are goals owned by `owner`. */
  function OwnedGoals(cs: seq<Collider>, owner: GoalOwner): nat
  {
    if |cs| == 0 then 0
    else OwnedGoals(cs[..|cs| - 1], owner) + (if cs[|cs| - 1].goal == Some(Goal(owner)) then 1 else 0)
  }

  /** Counting goals distributes over concatenation. */
  lemma {:induction false} OwnedGoalsAppend(a: seq<Collider>, b: seq<Collider>, owner: GoalOwner)
    ensures OwnedGoals(a + b, owner) == OwnedGoals(a, owner) + OwnedGoals(b, owner)
  {
    if |b| == 0 {
      assert a + b == a;
    } else {
      assert (a + b)[..|a + b| - 1] == a + b[..|b| - 1];
      assert (a + b)[|a + b| - 1] == b[|b| - 1];
      OwnedGoalsAppend(a, b[..|b| - 1], owner);
    }
  }

  /** A sequence without goal colliders owns no goals. */
  lemma {:induction false} NoGoalsOwnNone(cs: seq<Collider>, owner: GoalOwner)
    requires NoGoals(cs)
    ensures OwnedGoals(cs, owner) == 0
  {
    if |cs| > 0 {
      assert NoGoals(cs[..|cs| - 1]);
      NoGoalsOwnNone(cs[..|cs| - 1], owner);
    }
  }

  /** Over a tick, the enemy's counter rises by exactly the goals scored against the
      player, the player's by exactly those scored against the enemy, and the total by
      their sum. */
  lemma {:induction false} ScoresCountGoals(s: Snapshot, cs: seq<Collider>, collide: Collide, v0: Vec2)
    ensures var r := CheckForCollisions(s, cs, collide, v0);
            && r.scoreboard.enemyScore == s.scoreboard.enemyScore + GoalsAgainst(s, cs, collide, v0, Player)
            && r.scoreboard.playerScore == s.scoreboard.playerScore + GoalsAgainst(s, cs, collide, v0, Enemy)
            && Total(r.scoreboard) == Total(s.scoreboard)
                 + GoalsAgainst(s, cs, collide, v0, Player) + GoalsAgainst(s, cs, collide, v0, Enemy)
  {
    if |cs| > 0 {
      ScoresCountGoals(s, cs[..|cs| - 1], collide, v0);
    }
  }

  /** Each goal collider scores at most once per tick. */
  lemma {:induction false} GoalsAgainstBounded(s: Snapshot, cs: seq<Collider>, collide: Collide, v0: Vec2, owner: GoalOwner)
    ensures GoalsAgainst(s, cs, collide, v0, owner) <= OwnedGoals(cs, owner)
  {
    if |cs| > 0 {
      var n := |cs| - 1;
      GoalsAgainstBounded(s, cs[..n], collide, v0, owner);
    }
  }

  /** After a tick in which some goal was scored the ball is back at the start (at its own
      depth), since later non-goal hits never move it; after a tick without goals it is
      where it was. */
  lemma {:induction false} BallPositionAfterTick(s: Snapshot, cs: seq<Collider>, collide: Collide, v0: Vec2)
    ensures var r := CheckForCollisions(s, cs, collide, v0);
            var goals := GoalsAgainst(s, cs, collide, v0, Player) + GoalsAgainst(s, cs, collide, v0, Enemy);
            && (goals == 0 ==> r.ball.transform == s.ball.transform)
            && (goals > 0 ==> Truncate(r.ball.transform.translation) == Truncate(BallStartingPosition))
  {
    if |cs| > 0 {
      BallPositionAfterTick(s, cs[..|cs| - 1], collide, v0);
      var before := CheckForCollisions(s, cs[..|cs| - 1], collide, v0);
      var last := cs[|cs| - 1];
      if Probe(before.ball, last, collide).Some? && last.goal.Some? {
        assert ScoresAtEnd(s, cs, collide, v0, last.goal.value.goalOwner);
      }
    }
  }

  /** The collision loop as the game writes it, over a sequence of colliders; it computes
      the same thing as `CheckForCollisions`, and so counts the goals the same way. */
  method CheckForCollisionsLoop(s: Snapshot, cs: seq<Collider>, collide: Collide, v0: Vec2)
    returns (r: Snapshot)
    ensures r == CheckForCollisions(s, cs, collide, v0)
    ensures r.scoreboard.enemyScore == s.scoreboard.enemyScore + GoalsAgainst(s, cs, collide, v0, Player)
    ensures r.scoreboard.playerScore == s.scoreboard.playerScore + GoalsAgainst(s, cs, collide, v0, Enemy)
  {
    var ballTransform := s.ball.transform;
    var ballVelocity := s.ball.velocity;
    var scoreboard := s.scoreboard;
    var ballSize := Truncate(ballTransform.scale);
    for i := 0 to |cs|
      invariant Snapshot(BallState(ballTransform, ballVelocity), scoreboard)
                == CheckForCollisions(s, cs[..i], collide, v0)
    {
      assert cs[..i + 1][..i] == cs[..i];
      var c := cs[i];
      var collision := collide(ballTransform.translation, ballSize,
                               c.transform.translation, Truncate(c.transform.scale));
      if collision.Some? {
        if c.goal.Some? {
          ballVelocity := v0;
          var t := ballTransform.translation;
          ballTransform := ballTransform.(translation := Vec3(BallStartingPosition.x, BallStartingPosition.y, t.z));
          match c.goal.value.goalOwner {
            case Player => scoreboard := scoreboard.(enemyScore := scoreboard.enemyScore + 1);
            case Enemy => scoreboard := scoreboard.(playerScore := scoreboard.playerScore + 1);
          }
          continue;
        }
        var reflectX := false;
        var reflectY := false;
        match collision.value {
          case Left => reflectX := ballVelocity.x > 0.0;
          case Right => reflectX := ballVelocity.x < 0.0;
          case Top => reflectY := ballVelocity.y < 0.0;
          case Bottom => reflectY := ballVelocity.y > 0.0;
          case Inside =>
        }
        if reflectX {
          ballVelocity := ballVelocity.(x := -ballVelocity.x);
        }
        if reflectY {
          ballVelocity := ballVelocity.(y := -ballVelocity.y);
        }
      }
    }
    assert cs[..|cs|] == cs;
    r := Snapshot(BallState(ballTransform, ballVelocity), scoreboard);
    ScoresCountGoals(s, cs, collide, v0);
  }

}
