/** The movement engine of a player process: the budgeted walk `run`, the chase
    `runTowardsBall`, the look-ahead `nearBall`, the attack-side test and the
    offense/defense positioning, combined by `runStrategy` (match.c). */
module Movement {
  import opened Field

  /** Coordinate `c` after `n` unit steps towards `d`, stepping as `run` does:
      down when above `d`, otherwise up. */
  function Toward(c: int, d: int, n: nat): int
  {
    if c > d then c - n else c + n
  }

  /** Where `run` leaves a player that starts at `cur` with `budget` units, in closed form.
      While both axes differ it steps diagonally (2 units); with 1 unit left it steps on X;
      once one axis matches it steps on the other. A budget larger than the distance
      arrives and then bounces on Y (up, down, ...) for the units left over. */
  function Walk(dest: Pos, cur: Pos, budget: nat): Pos
  {
    var dx, dy := Abs(dest.x - cur.x), Abs(dest.y - cur.y);
    if budget > dx + dy then Pos(dest.x, dest.y + (budget - dx - dy) % 2)
    else if budget < 2 * dx && budget < 2 * dy then
      Pos(Toward(cur.x, dest.x, budget / 2 + budget % 2), Toward(cur.y, dest.y, budget / 2))
    else if dx <= dy then Pos(dest.x, Toward(cur.y, dest.y, budget - dx))
    else Pos(Toward(cur.x, dest.x, budget - dy), dest.y)
  }

  lemma WalkNone(dest: Pos, p: Pos)
    ensures Walk(dest, p, 0) == p
  {
  }

  lemma WalkStepY(dest: Pos, p: Pos, budget: nat)
    requires 0 < budget && p.x == dest.x
    ensures Walk(dest, p, budget) == Walk(dest, Pos(p.x, Toward(p.y, dest.y, 1)), budget - 1)
  {
  }

  lemma WalkStepX(dest: Pos, p: Pos, budget: nat)
    requires 0 < budget && p.x != dest.x && p.y == dest.y
    ensures Walk(dest, p, budget) == Walk(dest, Pos(Toward(p.x, dest.x, 1), p.y), budget - 1)
  {
  }

  lemma WalkStepLast(dest: Pos, p: Pos)
    requires p.x != dest.x && p.y != dest.y
    ensures Walk(dest, p, 1) == Pos(Toward(p.x, dest.x, 1), p.y)
  {
  }

  lemma WalkStepDiagonal(dest: Pos, p: Pos, budget: nat)
    requires 2 <= budget && p.x != dest.x && p.y != dest.y
    ensures Walk(dest, p, budget)
         == Walk(dest, Pos(Toward(p.x, dest.x, 1), Toward(p.y, dest.y, 1)), budget - 2)
  {
  }

  /** `c` lies on the segment between `a` and `b`. */
  predicate Between(a: int, c: int, b: int)
  {
    (a <= c <= b) || (b <= c <= a)
  }

  /** With a budget no larger than the distance the walk spends all of it, gets exactly
      that much closer, and never passes the destination on either axis. */
  lemma WalkExact(dest: Pos, cur: Pos, budget: nat)
    requires budget <= Dist(cur, dest)
    ensures Dist(Walk(dest, cur, budget), dest) == Dist(cur, dest) - budget
    ensures Dist(cur, Walk(dest, cur, budget)) == budget
    ensures Between(cur.x, Walk(dest, cur, budget).x, dest.x)
    ensures Between(cur.y, Walk(dest, cur, budget).y, dest.y)
  {
  }

  /** With a larger budget the walk ends on the destination or one unit above it. */
  lemma WalkOvershoot(dest: Pos, cur: Pos, budget: nat)
    requires budget > Dist(cur, dest)
    ensures Walk(dest, cur, budget) == dest || Walk(dest, cur, budget) == Pos(dest.x, dest.y + 1)
    ensures Walk(dest, cur, budget) == dest <==> (budget - Dist(cur, dest)) % 2 == 0
  {
  }

  /** The walk never moves further than its budget. */
  lemma WalkCost(dest: Pos, cur: Pos, budget: nat)
    ensures Dist(cur, Walk(dest, cur, budget)) <= budget
  {
    if budget > Dist(cur, dest) {
      WalkOvershoot(dest, cur, budget);
    } else {
      WalkExact(dest, cur, budget);
    }
  }

  /** A walk between two points of the field stays on the field, unless it bounces
      past a destination on the top line. */
  lemma WalkInField(dest: Pos, cur: Pos, budget: nat)
    requires InField(cur) && InField(dest)
    requires budget <= Dist(cur, dest) || dest.y < WIDTH
    ensures InField(Walk(dest, cur, budget))
  {
    if budget > Dist(cur, dest) {
      WalkOvershoot(dest, cur, budget);
    } else {
      WalkExact(dest, cur, budget);
    }
  }

  /** One call level of `run` with a positive budget: the step it takes and the budget it
      passes on. */
  method RunStep(dest: Pos, p: Pos, left: nat) returns (q: Pos, rest: nat)
    requires 0 < left
    ensures rest < left
    ensures Walk(dest, q, rest) == Walk(dest, p, left)
  {
    if p.x == dest.x {
      WalkStepY(dest, p, left);
      q, rest := Pos(p.x, Toward(p.y, dest.y, 1)), left - 1;
    } else if p.y == dest.y {
      WalkStepX(dest, p, left);
      q, rest := Pos(Toward(p.x, dest.x, 1), p.y), left - 1;
    } else if left == 1 {
      WalkStepLast(dest, p);
      WalkNone(dest, Pos(Toward(p.x, dest.x, 1), p.y));
      q, rest := Pos(Toward(p.x, dest.x, 1), p.y), 0;
    } else {
      WalkStepDiagonal(dest, p, left);
      q, rest := Pos(Toward(p.x, dest.x, 1), Toward(p.y, dest.y, 1)), left - 2;
    }
  }

  /** `run`: the budgeted walk, as a loop over the position (the source recurses). */
  method Run(dest: Pos, start: Pos, budget: nat) returns (p: Pos)
    ensures p == Walk(dest, start, budget)
    ensures budget <= Dist(start, dest) ==>
      Dist(p, dest) == Dist(start, dest) - budget && Dist(start, p) == budget &&
      Between(start.x, p.x, dest.x) && Between(start.y, p.y, dest.y)
    ensures budget > Dist(start, dest) ==> p == dest || p == Pos(dest.x, dest.y + 1)
    ensures Dist(start, p) <= budget
  {
    p := start;
    var left := budget;
    while left > 0
      invariant Walk(dest, p, left) == Walk(dest, start, budget)
      decreases left
    {
      p, left := RunStep(dest, p, left);
    }
    WalkNone(dest, p);
    WalkCost(dest, start, budget);
    if budget <= Dist(start, dest) {
      WalkExact(dest, start, budget);
    } else {
      WalkOvershoot(dest, start, budget);
    }
  }

  /** `runTowardsBall`: reach the ball when the budget covers the distance, else approach it.
      Returns the ball-bound position and the budget used. */
  method RunTowardsBall(ball: Pos, cur: Pos, budget: nat) returns (p: Pos, used: nat)
    ensures budget >= Dist(cur, ball) ==> p == ball && used == Dist(cur, ball)
    ensures budget < Dist(cur, ball) ==>
      used == budget && p == Walk(ball, cur, budget) && p != ball &&
      Dist(p, ball) == Dist(cur, ball) - budget
    ensures Dist(cur, p) == used <= budget
    ensures InField(cur) && InField(ball) ==> InField(p)
  {
    var distFromBall := Abs(ball.x - cur.x) + Abs(ball.y - cur.y);
    if budget >= distFromBall {
      p, used := ball, distFromBall;
    } else {
      p := Run(ball, cur, budget);
      used := budget;
      if InField(cur) && InField(ball) {
        WalkInField(ball, cur, budget);
      }
    }
  }

  /** `nearBall`: the look-ahead radius, five times the speed, strictly. */
  predicate NearBall(location: Pos, ball: Pos, speed: int)
  {
    Dist(location, ball) < 5 * speed
  }

  /** The radius is exclusive, and every player with a positive speed that could reach the
      ball this round is within it. */
  lemma NearBallRadius(location: Pos, ball: Pos, speed: int)
    ensures Dist(location, ball) == 5 * speed ==> !NearBall(location, ball, speed)
    ensures 0 < speed && Dist(location, ball) <= speed ==> NearBall(location, ball, speed)
  {
  }

  /** `isOffenseSide`: whether the ball lies in the half of the goal this player attacks. */
  function IsOffenseSide(rank: int, ball: Pos, round: int): (offense: bool)
    ensures offense <==> (AttackGoalX(rank, round) == LENGTH <==> LENGTH_HALF < ball.x)
  {
    if round < HALF_TIME then
      if rank < 7 then !(ball.x <= 64) else !(ball.x > 64)
    else
      if rank < 7 then ball.x <= 64 else ball.x > 64
  }

  /** The zone in front of the goal line at `goalX` in which offense and defense hold. */
  predicate InGoalZone(goalX: int, p: Pos)
  {
    (if goalX == LENGTH then p.x >= 108 else p.x <= 20) && Abs(p.y - 32) <= 16
  }

  /** Outside a goal zone a player is more than 16 units from that goal's centre point. */
  lemma OutsideZoneIsFar(goalX: int, p: Pos)
    requires goalX == 0 || goalX == LENGTH
    requires !InGoalZone(goalX, p)
    ensures Dist(p, Pos(goalX, 32)) > 16
  {
  }

  /** `runOffenseDirection`: hold inside the attacked goal's zone, else walk to its centre. */
  method RunOffenseDirection(rank: int, round: int, cur: Pos, speed: nat) returns (p: Pos)
    ensures InGoalZone(AttackGoalX(rank, round), cur) ==> p == cur
    ensures !InGoalZone(AttackGoalX(rank, round), cur) ==>
      p == Walk(Pos(AttackGoalX(rank, round), 32), cur, speed)
    ensures Dist(cur, p) <= speed
    ensures InField(cur) ==> InField(p)
    ensures !InGoalZone(AttackGoalX(rank, round), cur) && speed <= 16 ==>
      Dist(p, Pos(AttackGoalX(rank, round), 32)) == Dist(cur, Pos(AttackGoalX(rank, round), 32)) - speed
  {
    WalkCost(Pos(AttackGoalX(rank, round), 32), cur, speed);
    if !InGoalZone(AttackGoalX(rank, round), cur) && speed <= 16 {
      OutsideZoneIsFar(AttackGoalX(rank, round), cur);
      WalkExact(Pos(AttackGoalX(rank, round), 32), cur, speed);
    }
    if InField(cur) {
      WalkInField(Pos(AttackGoalX(rank, round), 32), cur, speed);
    }
    p := cur;
    if round < 2700 {
      if rank < 7 {
        if cur.x < 108 || Abs(cur.y - 32) > 16 { p := Run(Pos(128, 32), cur, speed); }
      } else {
        if cur.x > 20 || Abs(cur.y - 32) > 16 { p := Run(Pos(0, 32), cur, speed); }
      }
    } else {
      if rank < 7 {
        if cur.x > 20 || Abs(cur.y - 32) > 16 { p := Run(Pos(0, 32), cur, speed); }
      } else {
        if cur.x < 108 || Abs(cur.y - 32) > 16 { p := Run(Pos(128, 32), cur, speed); }
      }
    }
  }

  /** `runDefenseDirection`: hold inside the defended goal's zone, else walk to its centre. */
  method RunDefenseDirection(rank: int, round: int, cur: Pos, speed: nat) returns (p: Pos)
    ensures InGoalZone(LENGTH - AttackGoalX(rank, round), cur) ==> p == cur
    ensures !InGoalZone(LENGTH - AttackGoalX(rank, round), cur) ==>
      p == Walk(Pos(LENGTH - AttackGoalX(rank, round), 32), cur, speed)
    ensures Dist(cur, p) <= speed
    ensures InField(cur) ==> InField(p)
    ensures !InGoalZone(LENGTH - AttackGoalX(rank, round), cur) && speed <= 16 ==>
      Dist(p, Pos(LENGTH - AttackGoalX(rank, round), 32)) == Dist(cur, Pos(LENGTH - AttackGoalX(rank, round), 32)) - speed
  {
    WalkCost(Pos(LENGTH - AttackGoalX(rank, round), 32), cur, speed);
    if !InGoalZone(LENGTH - AttackGoalX(rank, round), cur) && speed <= 16 {
      OutsideZoneIsFar(LENGTH - AttackGoalX(rank, round), cur);
      WalkExact(Pos(LENGTH - AttackGoalX(rank, round), 32), cur, speed);
    }
    if InField(cur) {
      WalkInField(Pos(LENGTH - AttackGoalX(rank, round), 32), cur, speed);
    }
    p := cur;
    if round < 2700 {
      if rank < 7 {
        if cur.x > 20 || Abs(cur.y - 32) > 16 { p := Run(Pos(0, 32), cur, speed); }
      } else {
        if cur.x < 108 || Abs(cur.y - 32) > 16 { p := Run(Pos(128, 32), cur, speed); }
      }
    } else {
      if rank < 7 {
        if cur.x < 108 || Abs(cur.y - 32) > 16 { p := Run(Pos(128, 32), cur, speed); }
      } else {
        if cur.x > 20 || Abs(cur.y - 32) > 16 { p := Run(Pos(0, 32), cur, speed); }
      }
    }
  }

  /** The four designated chasers follow the ball wherever it is. */
  predicate IsChaser(rank: int)
  {
    rank == 5 || rank == 6 || rank == 10 || rank == 11
  }

  /** Where a player ends up: chasers, and anyone within the look-ahead radius, run at the
      ball; the others hold or walk toward the goal on the ball's side of the field. */
  function Strategy(rank: int, ball: Pos, cur: Pos, speed: nat): Pos
  {
    if IsChaser(rank) || NearBall(cur, ball, speed) then
      (if Dist(cur, ball) <= speed then ball else Walk(ball, cur, speed))
    else
      var goalX := if ball.x <= LENGTH_HALF then 0 else LENGTH;
      if InGoalZone(goalX, cur) then cur else Walk(Pos(goalX, 32), cur, speed)
  }

  /** `runStrategy`, through `isOffenseSide` and the two positioning functions: the goal a
      positioning player heads for is the attacked one when the ball is in the attacking
      half and the defended one otherwise, which is the goal on the ball's side. A move
      never costs more than the speed, the ball is reached exactly when it is within the
      speed, and a player on the field stays on it. */
  method RunStrategy(rank: int, round: int, ball: Pos, cur: Pos, speed: nat) returns (p: Pos)
    ensures p == Strategy(rank, ball, cur, speed)
    ensures Dist(cur, p) <= speed
    ensures p == ball <==> Dist(cur, ball) <= speed
    ensures InField(cur) && InField(ball) ==> InField(p)
  {
    var used: nat;
    if rank == 5 || rank == 6 || rank == 10 || rank == 11 {
      p, used := RunTowardsBall(ball, cur, speed);
    } else if NearBall(cur, ball, speed) {
      p, used := RunTowardsBall(ball, cur, speed);
    } else if IsOffenseSide(rank, ball, round) {
      p := RunOffenseDirection(rank, round, cur, speed);
    } else {
      p := RunDefenseDirection(rank, round, cur, speed);
    }
  }
}
