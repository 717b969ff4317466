/** Field geometry, ball ownership between the two field processes, the attacking
    direction of each team, and the fixed roster of the ten players (match.c). */
module Field {

  const PROCESSES := 12
  const LENGTH := 128
  const WIDTH := 64
  const LENGTH_HALF := 64
  const HALF_TIME := 2700

  /** Ranks of the two field processes. */
  const FP0 := 0
  const FP1 := 1

  /** A point of the field grid (also used for off-field values such as the -1 marker). */
  datatype Pos = Pos(x: int, y: int)

  /** Where the ball is put at kick-off and after every goal. */
  const Centre := Pos(LENGTH_HALF, 32)

  function Abs(n: int): nat
  {
    if n < 0 then -n else n
  }

  /** Manhattan distance, as computed with two `abs` calls throughout the program. */
  function Dist(a: Pos, b: Pos): nat
  {
    Abs(a.x - b.x) + Abs(a.y - b.y)
  }

  predicate InField(p: Pos)
  {
    0 <= p.x <= LENGTH && 0 <= p.y <= WIDTH
  }

  /** `fieldProcess`: the field process whose half holds the ball resolves the round. */
  function FieldProcess(ball: Pos): (fp: int)
    ensures fp == FP0 || fp == FP1
    ensures fp == FP1 <==> LENGTH_HALF < ball.x
  {
    if ball.x <= LENGTH_HALF then FP0 else FP1
  }

  /** `inMyField`: the same ownership test, under a second name in the source. */
  function InMyField(location: Pos): (fp: int)
    ensures fp == FieldProcess(location)
  {
    if location.x <= LENGTH_HALF then FP0 else FP1
  }

  /** Exactly one of the two field processes owns the ball, whatever its position. */
  lemma ExactlyOneOwner(ball: Pos)
    ensures (FieldProcess(ball) == FP0) != (FieldProcess(ball) == FP1)
    ensures InField(ball) ==> (FieldProcess(ball) == FP0 <==> 0 <= ball.x <= LENGTH_HALF)
  {
  }

  /** The X of the goal line that a player of `rank` attacks in `round` (the `target` of each
      player process, flipped at half time); the same choice picks the winner's scoring anchor. */
  function AttackGoalX(rank: int, round: int): (gx: int)
    ensures gx == 0 || gx == LENGTH
    ensures gx == LENGTH <==> (rank < 7 <==> round < HALF_TIME)
  {
    if round < HALF_TIME then (if rank < 7 then LENGTH else 0)
    else (if rank < 7 then 0 else LENGTH)
  }

  /** The two teams attack opposite goals, and every player swaps goals at half time. */
  lemma AttackGoalsMirrorAndFlip(a: int, b: int, before: int, after: int)
    requires a < 7 <= b && before < HALF_TIME <= after
    ensures AttackGoalX(a, before) == LENGTH - AttackGoalX(b, before)
    ensures AttackGoalX(a, after) == LENGTH - AttackGoalX(b, after)
    ensures AttackGoalX(a, before) != AttackGoalX(a, after)
    ensures AttackGoalX(b, before) != AttackGoalX(b, after)
  {
  }

  /** Fixed attributes of one player process. */
  datatype Setup = Setup(start: Pos, speed: nat, dribbling: int, shooting: int)

  /** The roster switch on the process rank: starting position, speed, dribbling, shooting. */
  function Roster(rank: int): (s: Setup)
    requires 2 <= rank < PROCESSES
    ensures InField(s.start)
    ensures 3 <= s.speed <= 10 && 1 <= s.dribbling <= 10 && 1 <= s.shooting <= 8
    ensures FieldProcess(s.start) == (if rank < 7 then FP0 else FP1)
  {
    match rank
    case 2 => Setup(Pos(21, 48), 3, 10, 2)
    case 3 => Setup(Pos(21, 32), 3, 8, 4)
    case 4 => Setup(Pos(21, 16), 5, 7, 3)
    case 5 => Setup(Pos(41, 48), 10, 3, 2)
    case 6 => Setup(Pos(41, 16), 8, 1, 6)
    case 7 => Setup(Pos(107, 48), 7, 2, 6)
    case 8 => Setup(Pos(107, 32), 10, 4, 1)
    case 9 => Setup(Pos(107, 16), 3, 10, 2)
    case 10 => Setup(Pos(87, 48), 8, 2, 5)
    case _ => Setup(Pos(87, 16), 5, 2, 8)
  }
}
