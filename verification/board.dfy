/**
 The arena: four walls that bounce the ball and two goals that score, all fixed for
 the life of the game (src/board.rs).
 */
module Board {

  import opened Geometry

  const WallThickness: real := 10.0
  const GoalThickness: real := WallThickness * 1.5

  // x coordinates of the side walls' centres
  const LeftWall: real := -450.0
  const RightWall: real := 450.0
  // y coordinates of the top and bottom walls' centres
  const BottomWall: real := -250.0
  const TopWall: real := 250.0

  /** The height of a goal's opening (spelt `GOAL_HEIGH` in the game's code). */
  const GoalHeight: real := 150.0

  datatype WallLocation = Left | Right | Bottom | Top

  datatype GoalLocation = Left | Right

  /** The side a goal belongs to: the side that defends it. */
  datatype GoalOwner = Player | Enemy

  /** The component that marks a collider as a goal. */
  datatype Goal = Goal(goalOwner: GoalOwner)

  /** A goal entity as spawned: its sprite transform and its goal component. */
  datatype GoalBundle = GoalBundle(transform: Transform, goal: Goal)

  /** The distance between the centres of the top and bottom walls; the game asserts it is positive. */
  function ArenaHeight(): (h: real)
    ensures h > 0.0
    ensures h == 500.0
  {
    TopWall - BottomWall
  }

  /** The distance between the centres of the side walls; the game asserts it is positive. */
  function ArenaWidth(): (w: real)
    ensures w > 0.0
    ensures w == 900.0
  {
    RightWall - LeftWall
  }

  /** Each wall is centred on an edge of the arena: the side walls at mid-height, the top
      and bottom walls at mid-width. */
  function WallPosition(loc: WallLocation): (p: Vec2)
    ensures p.y == 0.0 <==> loc.Left? || loc.Right?
    ensures p.x == 0.0 <==> loc.Bottom? || loc.Top?
    ensures loc.Left? ==> p.x < 0.0
    ensures loc.Right? ==> p.x > 0.0
    ensures loc.Bottom? ==> p.y < 0.0
    ensures loc.Top? ==> p.y > 0.0
  {
    match loc
    case Left => Vec2(LeftWall, 0.0)
    case Right => Vec2(RightWall, 0.0)
    case Bottom => Vec2(0.0, BottomWall)
    case Top => Vec2(0.0, TopWall)
  }

  /** Side walls run the full arena height plus one thickness, top and bottom walls the
      full width plus one thickness, so that they overlap at the corners. */
  function WallSize(loc: WallLocation): (s: Vec2)
    ensures s.x > 0.0 && s.y > 0.0
  {
    var arenaHeight := ArenaHeight();
    var arenaWidth := ArenaWidth();
    match loc
    case Left | Right => Vec2(WallThickness, arenaHeight + WallThickness)
    case Bottom | Top => Vec2(arenaWidth + WallThickness, WallThickness)
  }

  /** A goal is centred exactly where the wall it is set into is centred. */
  function GoalPosition(loc: GoalLocation): (p: Vec2)
    ensures p == WallPosition(WallBehind(loc))
  {
    match loc
    case Left => Vec2(LeftWall, 0.0)
    case Right => Vec2(RightWall, 0.0)
  }

  function GoalSize(loc: GoalLocation): (s: Vec2)
    ensures s.x > 0.0 && s.y > 0.0
  {
    Vec2(GoalThickness, GoalHeight + GoalThickness)
  }

  /** The wall that a goal is set into. */
  function WallBehind(loc: GoalLocation): WallLocation
  {
    match loc
    case Left => WallLocation.Left
    case Right => WallLocation.Right
  }

  /** `WallBundle::new`: the sprite sits at the wall's position and is scaled to its size. */
  function NewWall(loc: WallLocation): (t: Transform)
    ensures Truncate(t.translation) == WallPosition(loc) && t.translation.z == 0.0
    ensures Truncate(t.scale) == WallSize(loc) && t.scale.z == 1.0
  {
    Transform(Extend(WallPosition(loc), 0.0), Extend(WallSize(loc), 1.0))
  }

  /** `GoalBundle::new`: the goal's sprite at its position and size, tagged with its owner. */
  function NewGoal(loc: GoalLocation, owner: GoalOwner): (b: GoalBundle)
    ensures Truncate(b.transform.translation) == GoalPosition(loc) && b.transform.translation.z == 0.0
    ensures Truncate(b.transform.scale) == GoalSize(loc) && b.transform.scale.z == 1.0
    ensures b.goal.goalOwner == owner
  {
    GoalBundle(Transform(Extend(GoalPosition(loc), 0.0), Extend(GoalSize(loc), 1.0)), Goal(owner))
  }

  /** The walls spawned at startup, in spawn order. */
  function SetupWalls(): seq<Transform>
  {
    [NewWall(WallLocation.Left), NewWall(WallLocation.Right),
     NewWall(WallLocation.Bottom), NewWall(WallLocation.Top)]
  }

  /** The goals spawned at startup: the left one is the player's, the right one the enemy's. */
  function SetupGoals(): seq<GoalBundle>
  {
    [NewGoal(GoalLocation.Left, Player), NewGoal(GoalLocation.Right, Enemy)]
  }

  /** The walls sit at the centres of the arena's four edges and have the stated extents. */
  lemma WallGeometry()
    ensures WallPosition(WallLocation.Left) == Vec2(-450.0, 0.0)
    ensures WallPosition(WallLocation.Right) == Vec2(450.0, 0.0)
    ensures WallPosition(WallLocation.Bottom) == Vec2(0.0, -250.0)
    ensures WallPosition(WallLocation.Top) == Vec2(0.0, 250.0)
    ensures forall loc: WallLocation :: loc.Left? || loc.Right? ==> WallSize(loc) == Vec2(10.0, 510.0)
    ensures forall loc: WallLocation :: loc.Bottom? || loc.Top? ==> WallSize(loc) == Vec2(910.0, 10.0)
  {
  }

  /** Every goal is 15 wide and 165 high, whichever side it is on. */
  lemma GoalGeometry(loc: GoalLocation)
    ensures GoalSize(loc) == Vec2(15.0, 165.0)
    ensures GoalSize(loc) == GoalSize(GoalLocation.Left)
  {
  }

  /** The board is symmetric: each wall and goal is the mirror image of its opposite. */
  lemma BoardMirrors()
    ensures WallPosition(WallLocation.Left) == Neg(WallPosition(WallLocation.Right))
    ensures WallPosition(WallLocation.Bottom) == Neg(WallPosition(WallLocation.Top))
    ensures WallSize(WallLocation.Left) == WallSize(WallLocation.Right)
    ensures WallSize(WallLocation.Bottom) == WallSize(WallLocation.Top)
    ensures GoalPosition(GoalLocation.Left) == Neg(GoalPosition(GoalLocation.Right))
  {
    WallGeometry();
  }

  /** The four walls form a closed frame: each side wall reaches exactly to the outer
      edges of the top and bottom walls, and each of those exactly to the outer faces of
      the side walls. */
  lemma WallsCloseArena()
    ensures BoxOf(WallPosition(WallLocation.Left), WallSize(WallLocation.Left)).min.y
         == BoxOf(WallPosition(WallLocation.Bottom), WallSize(WallLocation.Bottom)).min.y
    ensures BoxOf(WallPosition(WallLocation.Left), WallSize(WallLocation.Left)).max.y
         == BoxOf(WallPosition(WallLocation.Top), WallSize(WallLocation.Top)).max.y
    ensures BoxOf(WallPosition(WallLocation.Bottom), WallSize(WallLocation.Bottom)).min.x
         == BoxOf(WallPosition(WallLocation.Left), WallSize(WallLocation.Left)).min.x
    ensures BoxOf(WallPosition(WallLocation.Bottom), WallSize(WallLocation.Bottom)).max.x
         == BoxOf(WallPosition(WallLocation.Right), WallSize(WallLocation.Right)).max.x
  {
  }

  /** Each goal is centred on the wall it is set into, is thicker than that wall so it
      sticks out of it on both faces, and its opening lies strictly between the inner
      faces of the top and bottom walls. */
  lemma GoalsSetIntoSideWalls(loc: GoalLocation)
    ensures GoalPosition(loc) == WallPosition(WallBehind(loc))
    ensures var g := BoxOf(GoalPosition(loc), GoalSize(loc));
            var w := BoxOf(WallPosition(WallBehind(loc)), WallSize(WallBehind(loc)));
            g.min.x < w.min.x && w.max.x < g.max.x
    ensures var g := BoxOf(GoalPosition(loc), GoalSize(loc));
            BoxOf(WallPosition(WallLocation.Bottom), WallSize(WallLocation.Bottom)).max.y < g.min.y
            && g.max.y < BoxOf(WallPosition(WallLocation.Top), WallSize(WallLocation.Top)).min.y
  {
  }

  /** Startup spawns four walls, one per location, and two goals: the one set into the
      left wall is owned by the player and the one set into the right wall by the enemy. */
  lemma SetupOwners()
    ensures |SetupWalls()| == 4
    ensures forall loc: WallLocation :: NewWall(loc) in SetupWalls()
    ensures |SetupGoals()| == 2
    ensures forall g :: g in SetupGoals() ==>
              (g.goal.goalOwner == Player <==> g.transform.translation.x == LeftWall)
    ensures forall g :: g in SetupGoals() ==>
              (g.goal.goalOwner == Enemy <==> g.transform.translation.x == RightWall)
  {
  }

}
