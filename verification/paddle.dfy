/**
 The two paddles' fixed geometry and the vertical range both paddle controllers keep
 a paddle in (src/paddle.rs, and the bounds computed alike in src/player.rs and
 src/enemy.rs).
 */
module Paddle {

  import opened Geometry
  import Board

  const GapBetweenPaddleAndWall: real := 60.0

  const PaddleHeight: real := 120.0
  const PaddleWidth: real := 40.0

  datatype PaddleLocation = Left | Right

  /** A paddle spawns at mid-height, one gap inside the side wall on its own side. */
  function Position(loc: PaddleLocation): (p: Vec2)
    ensures p.y == 0.0
    ensures loc == Left ==> p.x - Board.LeftWall == GapBetweenPaddleAndWall
    ensures loc == Right ==> Board.RightWall - p.x == GapBetweenPaddleAndWall
    ensures Board.LeftWall < p.x < Board.RightWall
  {
    match loc
    case Left => Vec2(Board.LeftWall + GapBetweenPaddleAndWall, 0.0)
    case Right => Vec2(Board.RightWall - GapBetweenPaddleAndWall, 0.0)
  }

  function Size(loc: PaddleLocation): (s: Vec2)
    ensures s.x > 0.0 && s.y > 0.0
  {
    Vec2(PaddleWidth, PaddleHeight)
  }

  /** `PaddleBundle::new`: the sprite is placed exactly at the location's position and
      scaled exactly to its size (the colour is presentation only and left out). */
  function NewPaddle(loc: PaddleLocation): (t: Transform)
    ensures Truncate(t.translation) == Position(loc) && t.translation.z == 0.0
    ensures Truncate(t.scale) == Size(loc) && t.scale.z == 1.0
  {
    Transform(Extend(Position(loc), 0.0), Extend(Size(loc), 1.0))
  }

  /** The highest centre a paddle may have: its top edge then touches the inner face of
      the top wall. */
  function TopBound(): (b: real)
    ensures b + PaddleHeight / 2.0 == Board.TopWall - Board.WallThickness / 2.0
    ensures b == 185.0
  {
    Board.TopWall - Board.WallThickness / 2.0 - PaddleHeight / 2.0
  }

  /** The lowest centre a paddle may have: its bottom edge then touches the inner face of
      the bottom wall. */
  function BottomBound(): (b: real)
    ensures b - PaddleHeight / 2.0 == Board.BottomWall + Board.WallThickness / 2.0
    ensures b == -185.0
  {
    Board.BottomWall + Board.WallThickness / 2.0 + PaddleHeight / 2.0
  }

  /** A paddle centre height the controllers allow. */
  predicate InBounds(y: real)
  {
    BottomBound() <= y <= TopBound()
  }

  /** The range is not empty, so the controllers' clamp never panics, and it is symmetric. */
  lemma BoundsOrdered()
    ensures BottomBound() < TopBound()
    ensures BottomBound() == -TopBound()
  {
  }

  /** The paddles sit 60 inside the side walls, 40 wide and 120 high, mirroring each other. */
  lemma PaddleGeometry(loc: PaddleLocation)
    ensures Position(PaddleLocation.Left) == Vec2(-390.0, 0.0)
    ensures Position(PaddleLocation.Right) == Vec2(390.0, 0.0)
    ensures Position(PaddleLocation.Left) == Neg(Position(PaddleLocation.Right))
    ensures Size(loc) == Vec2(40.0, 120.0)
  {
  }

  /** Each paddle lies wholly between the inner faces of the side walls, clear of the
      goal set into the wall behind it, and it spawns at a height the controllers allow. */
  lemma PaddleInsideArena(loc: PaddleLocation)
    ensures Board.LeftWall < Position(loc).x < Board.RightWall
    ensures var p := BoxOf(Position(loc), Size(loc));
            var l := BoxOf(Board.GoalPosition(Board.GoalLocation.Left), Board.GoalSize(Board.GoalLocation.Left));
            var r := BoxOf(Board.GoalPosition(Board.GoalLocation.Right), Board.GoalSize(Board.GoalLocation.Right));
            l.max.x < p.min.x && p.max.x < r.min.x
    ensures InBounds(Position(loc).y)
    ensures InBounds(NewPaddle(loc).translation.y)
  {
  }

}
