/** The scoreboard resource: one counter per side, both starting at zero (src/scoreboard.rs). */
module Score {

  datatype Scoreboard = Scoreboard(playerScore: nat, enemyScore: nat)

  function Total(s: Scoreboard): nat
  {
    s.playerScore + s.enemyScore
  }

  /** The scoreboard inserted when the game starts: nobody has scored. */
  function Initial(): (s: Scoreboard)
    ensures Total(s) == 0
  {
    Scoreboard(0, 0)
  }

}
