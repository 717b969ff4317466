/** The two message shapes of one round: the 7-int report a player sends to each field
    process, and the 7-int record the ball-owning field process sends to its peer. */
module Messages {
  import opened Field

  /** Shot types carried in a report. */
  const SCORE := 0
  const PASS := 1

  /** A player report (`PLYR_MSG_SIZE` ints: X, Y, RANK, CHAL_SCR, SHOT_TYPE, SHOOT_SKILL, RND_NO).
      X == -1 marks the dummy copy sent to the field process that does not own the ball;
      chal == -1 and shotType == -1 mark a player that did not reach the ball. */
  datatype Report = Report(x: int, y: int, rank: int, chal: int, shotType: int, skill: int, rnd: int)

  function Where(r: Report): Pos
  {
    Pos(r.x, r.y)
  }

  /** The synchronisation record `ballChallengeInfo`: winner rank (-1 if none), shot target,
      ball position after the round, points scored, scoring team (-1 if none). */
  datatype Sync = Sync(winner: int, shotX: int, shotY: int, ballX: int, ballY: int, points: int, team: int)

  function BallAfter(s: Sync): Pos
  {
    Pos(s.ballX, s.ballY)
  }
}
