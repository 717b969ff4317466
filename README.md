# Soccer match rule engine in Dafny

The repository simulates a soccer match with 12 MPI processes. Ranks 0 and 1 are the two
field processes, FP0 owning the left half of the 128 x 64 field (X <= 64) and FP1 the
right half. Ranks 2..6 form team 0 and ranks 7..11 form team 1. In each of the 5400 rounds:

- every player moves toward the ball or a goal with a budget of `speed` steps;
- every player reports its position, and if it reached the ball a challenge score, to both
  field processes;
- the field process owning the ball picks the contest winner, who shoots or passes;
- that field process decides the points and sends a synchronisation record to the other;
- FP0 adds the points to the score.

This project models that rule engine sequentially, one round at a time, and proves what it
promises. Every path in the table is relative to the repository root; the whole program,
rule engine and transport alike, is in `match.c`.

- `field.dfy` (`Field`): geometry and Manhattan distance, ball ownership
  (`fieldProcess`/`inMyField`), the attacked goal of each rank and half, and the roster.
- `messages.dfy` (`Messages`): the 7-int player report and the 7-int synchronisation record.
- `movement.dfy` (`Movement`): `run` as a loop, proved against a closed form `Walk`;
  `runTowardsBall`, `nearBall`, `isOffenseSide`, the offense and defense positioning, and
  `runStrategy`, proved against the reference definition `Strategy`.
- `shot.dfy` (`Shot`): `determineShot`, with the probability test as an oracle and the
  three `rand()` draws as inputs.
- `contention.dfy` (`Contention`): the challenge scan with `drawBuf` as an array, proved
  against the recursive function `Scan`, and the random tie-break.
- `players.dfy` (`Players`): `initInfo` and the roster set-up on the 9-int `playerInfo`
  array, report construction, and a player's whole round.
- `coordinator.dfy` (`Coordinator`): the pass search loop, the shot plan, the round
  outcome `Outcome`, and a `FieldCoordinator` class (the field process's `ballCoords`
  and `score`). Its methods resolve the contest, adopt the peer's record and fold the
  record into the score. `FieldRound` composes one round of both field processes.

Randomness is explicit.

- The float tests become oracle parameters `(int, int) -> bool` over the distance and the
  skill:
  - `getShotProbability(...) > 0.6`, which picks the shot type;
  - `shotProb <= probability`, which decides a hit.
- Each `rand()` value is a `nat` input, and the model applies the same `%` to it as the code.

Behaviour the model reproduces as the code has it:

- The first player to reach the tied maximum never enters `drawBuf`, so the random draw
  only picks among the later ties. A plain two-way tie goes to the first player without a
  draw.
- A winner standing on the anchor (the centre of the goal it attacks) scores 2 and the ball
  is not reset.
- A pass is shot with the skill and from the position of `currPlayer`, which the search
  loop leaves at the team's last slot (6 or 11), not from the target teammate.
- The shot distance in `determineShot` is `2 * |dx|`, because the second term adds 1 to the
  X values instead of reading Y.
- A miss uses one magnitude `ranLocation / 2` (0..4) on both axes, with independent signs.
- `run` is specified for every budget. When the budget exceeds the distance, the code's
  branches step back and forth on the Y axis once the destination is reached. The result
  is the destination, or one step above it when the leftover budget is odd (`WalkOvershoot`).

## Model

| member | source | states |
|---|---|---|
| Field.FieldProcess | match.c:639-641 | the owner is FP0 or FP1, and FP1 exactly when ball X > 64 |
| Field.InMyField | match.c:559-561 | the same ownership decision as `fieldProcess` for every position |
| Field.ExactlyOneOwner | match.c:279 | exactly one field process resolves each round; on the field, FP0 owns X in 0..64 |
| Field.AttackGoalX | match.c:191-193 | the attacked goal line is 0 or 128, and 128 exactly when (rank < 7) matches (round < 2700) |
| Field.AttackGoalsMirrorAndFlip | match.c:84 | the two teams attack opposite goals, and both switch goals at half time |
| Field.Roster | match.c:111-162 | every roster start is on the field in the own team's half; speed 3..10, dribbling 1..10, shooting 1..8 |
| Players.Enlist | match.c:111-164 | the set-up returns the roster row and writes the start into INIT and END, flags 0, challenge and shot target -1 |
| Players.InitInfo | match.c:459-464 | the new record: END copied to INIT, END unchanged, both flags 0, challenge and shot X/Y -1 |
| Players.Challenge | match.c:211 | a challenge lies between dribbling and 10 * dribbling and is a multiple of dribbling |
| Players.GoalDistance | match.c:213 | the distance from the end position to the attacked goal's centre that the shot-type oracle receives; used by `MakeReports` |
| Players.MakeReports | match.c:207-253 | owner is `fieldProcess(ball)`; a ball-reacher sends challenge and shot type (SCORE iff the oracle prefers a shot) and to the other a copy that differs from the owner's report only in X = -1; others send one report with challenge = shot type = -1 to both |
| Players.ContendsIffOnBall | match.c:207-253 | the copy a field process receives is a contender exactly when the player is on the ball and that process owns the ball |
| Players.ContestIsAmongBallReachers | match.c:288-306 | with real roster skills, the owner's contest has a winner iff some player reached the ball, and the winner is one of those; the non-owner's never has one |
| Players.PlayerRound | match.c:190-253 | the whole new `playerInfo`: INIT = old END, END = `Strategy` of the start; REACH_RND 1 iff the ball is within speed; CHALLENGE as sent; the outbox is `MakeReports` of the end |
| Movement.WalkExact | match.c:617-637 | within the distance, the walk costs exactly the budget, lowers the distance by it, and never passes the destination on either axis |
| Movement.WalkOvershoot | match.c:617-637 | beyond the distance, the walk ends on the destination or one step above it, on the destination iff the leftover is even |
| Movement.WalkCost | match.c:617-637 | a walk never moves further than its budget |
| Movement.WalkInField | match.c:617-637 | a walk between field points stays on the field, unless the budget exceeds the distance and the destination is on the top line Y = 64 (the bounce then reaches Y = 65) |
| Movement.RunStep | match.c:617-637 | one recursion level of `run` (any of its four branches) consumes budget and keeps the closed-form result |
| Movement.Run | match.c:617-637 | the loop's position equals `Walk`, so the exact cost, no-overshoot and overshoot facts above hold of it |
| Movement.RunTowardsBall | match.c:600-614 | a sufficient budget reaches the ball and returns the distance; otherwise it returns the budget, walks by `run` and does not reach the ball |
| Movement.NearBall | match.c:486-492 | `nearBall`, the strict test distance < 5 * speed; its meaning is in `NearBallRadius` |
| Movement.NearBallRadius | match.c:486-492 | the radius 5 * speed is strict, and every player able to reach the ball is inside it |
| Movement.IsOffenseSide | match.c:495-508 | the ball is on the offense side exactly when it is in the half of the attacked goal |
| Movement.OutsideZoneIsFar | match.c:510-532 | a player outside a goal zone is more than 16 from the goal centre |
| Movement.RunOffenseDirection | match.c:510-532 | holds inside the attacked goal's zone, else walks toward it; costs at most the speed and at speed <= 16 lowers the goal distance exactly by it |
| Movement.RunDefenseDirection | match.c:534-557 | the same toward the defended goal |
| Movement.RunStrategy | match.c:466-483 | the result equals `Strategy`: chasers and near players run at the ball, others position toward the goal on the ball's side; the ball is reached iff within speed |
| Shot.ShotDistance | match.c:565 | `determineShot`'s distance as written; `ShotDistanceIgnoresY` states it is twice the X distance |
| Shot.ShotDistanceIgnoresY | match.c:565 | the shot distance is twice the X distance and does not depend on either Y |
| Shot.MissMagnitude | match.c:574 | the miss magnitude lies in 0..4 |
| Shot.ClampX | match.c:581-585 | a miss X lands on the field, and an on-field X is kept |
| Shot.ClampY | match.c:587-591 | a miss Y lands on the field, and an on-field Y is kept |
| Shot.DetermineShot | match.c:563-593 | a hit lands on the target; a miss shifts both axes by one magnitude with the drawn signs, X > 128 becomes 108, X < 0 becomes 20, and Y is clamped to 0..64 |
| Shot.MissSharesMagnitude | match.c:574-578 | an unclamped miss is off by the same magnitude on both axes |
| Shot.ShotIgnoresOriginY | match.c:565 | the shooter's Y has no effect on the shot |
| Shot.MissAtGoalScoresOnlyWithoutOffset | match.c:370 | a missed shot at a goal centre still lands on it iff `ranLocation` was 1 |
| Contention.Scan | match.c:288-303 | the scan over the reports, slot by slot; the draw list never outgrows the slots seen, so `drawBuf[PROCESSES]` cannot overflow; its meaning is in `ScanBest` and `ScanDraws` |
| Contention.ScanBest | match.c:288-303 | no winner iff no contender; otherwise the kept rank is a contender holding the maximum, and it is the first to reach the maximum |
| Contention.ScanDraws | match.c:295-301 | `drawBuf` holds, in increasing order, exactly the contenders after the kept one that tie the maximum |
| Contention.Winner | match.c:305-306 | the winner is -1 or a player rank |
| Contention.WinnerMeaning | match.c:288-306 | the winner is -1 iff no contender; otherwise a contender holding the maximum challenge |
| Contention.ScanKeepsFirst | match.c:288-303 | the first contender holding the maximum is the one kept, with the maximum as `maxBallChallenge` |
| Contention.DrawsAreLaterTies | match.c:295-306 | a draw happens (drawCount > 1) iff two ties come after the kept rank |
| Contention.TieBreakSkipsFirst | match.c:295-306 | with two later ties, the winner is a later tie; otherwise it is the first one to reach the maximum |
| Contention.TwoWayTieFirstSeenWins | match.c:295-306 | in a two-way tie the first one seen wins, whatever the roll |
| Contention.ThreeWayTieSkipsFirst | match.c:295-306 | in a three-way tie the roll picks the second (even) or the third (odd), never the first |
| Contention.ScanChallenges | match.c:280-306 | the loop's results equal `Scan` and `Winner`, and satisfy the winner facts above |
| Coordinator.Anchor | match.c:310-319 | the anchor is the centre of the goal the winner's team attacks in this half |
| Coordinator.PassScan | match.c:336-355 | the pass search over one team's slots, slot by slot; its meaning is in `PassScanMeaning` |
| Coordinator.PassScanMeaning | match.c:336-342 | the search picks the first report of this round at the smallest distance below the start, or keeps the winner |
| Coordinator.FindPassTarget | match.c:336-360 | the loop matches the search spec over the winner's team; a found target is a teammate of this round that is strictly closer and first-minimal; `currPlayer` ends at the team's last slot |
| Coordinator.ShotPlan | match.c:327-366 | the shooter is a player slot |
| Coordinator.ShotPlanMeaning | match.c:327-366 | a scorer, or a passer with no closer teammate, shoots at the anchor; otherwise slot 6 or 11 shoots at the position of the first closest teammate, with that teammate's distance |
| Coordinator.GoalPoints | match.c:370-371 | a goal is worth 2 or 3, and 3 exactly from distance >= 24 |
| Coordinator.Landing | match.c:327-366 | where the planned shot lands: on the target for a hit, on the field whenever the target is; the shooter is the plan's (`currPlayer` for a found pass) |
| Coordinator.Outcome | match.c:308-394 | the owner's synchronisation record; its meaning is in `OutcomeWinner`, `WinnerOnAnchorScoresTwo`, `ShotDecidesScore`, `HitScores`, `PointsAreZeroTwoOrThree` and `BallStaysOnField` |
| Coordinator.OutcomeWinner | match.c:308-394 | the record's winner is the contest winner; with none, the record has -1, the ball untouched and 0 points; with one, a maximal contender and its team |
| Coordinator.WinnerOnAnchorScoresTwo | match.c:324-325 | a winner on the anchor scores 2, the ball stays, and the shot target is the anchor |
| Coordinator.ShotDecidesScore | match.c:327-375 | a landing on a goal centre resets the ball to the centre and scores 3 iff the plan's distance is >= 24; any other landing scores 0 and leaves the ball there |
| Coordinator.HitScores | match.c:327-375 | a scoring shot that hits is a goal worth `GoalPoints` of the winner's distance, with the ball back at the centre |
| Coordinator.PointsAreZeroTwoOrThree | match.c:321-375 | points are 0, 2 or 3, go to team 0 or 1 only, and 3 points always reset the ball |
| Coordinator.BallStaysOnField | match.c:321-375 | with the ball and every report on the field, the ball after the round is on the field |
| Coordinator.Tallied | match.c:426 | the points go to the record's team only, and the total grows by them |
| Coordinator.ScoresNeverDecrease | match.c:426 | no round lowers either score, and the total rises by 0, 2 or 3 |
| Coordinator.FieldCoordinator.constructor | match.c:89-97 | kick-off ball at the centre and a 0-0 score |
| Coordinator.FieldCoordinator.ResolveChallenge | match.c:279-394 | the owner's record is `Outcome` of its reports and old ball, and its new ball is the record's |
| Coordinator.FieldCoordinator.AdoptSync | match.c:402-414 | the non-owner's ball becomes the record's |
| Coordinator.FieldCoordinator.FoldSync | match.c:426-431 | FP0's score becomes `Tallied` of the record and its ball the record's |
| Coordinator.FieldRound | match.c:279-431 | after a round both field processes hold the record's ball, FP0's score is tallied, and FP1's score is untouched |

## Left out

- MPI transport is not modelled: sends, receives, waits, the first-of-two ball receive, and
  the 5400-round loop. One round is sequential, and the reports arrive as a `seq<Report>`
  indexed by rank; `Players.Inbox` builds that buffer from what each player sent.
- The model assumes the owner receives the report as built. A player on the ball sets
  `playerMessage[X] = -1` for the dummy copy before the non-blocking send to the owner has
  completed, so under MPI rules the X the owner receives is not guaranteed.
- Only FP0 broadcasts the ball's coordinates to the players. The model passes the ball
  to players directly.
- The process-count check, `exit`, `srand`, `wall_clock_time` and all `printf` output are
  not modelled.
- `getShotProbability` works on floating point and `pow`. The `> 0.6` shot-type test and the
  `shotProb <= probability` hit test are oracle parameters, and `rand()` values are inputs.
- With no winner, FP0 writes out of bounds: `score[ballChallengeInfo[6]] += …` writes
  `score[-1]`, and the three `allPlayerInfo` writes at `-9 + SHOOT_X`, `-9 + SHOOT_Y` and
  `-9 + WIN_RND` write `allPlayerInfo[-2]`, `[-1]` and `[-4]`. That is undefined behaviour.
  - `FoldSync` adds the points only for team 0 or 1.
  - The `allPlayerInfo` copy (WIN_RND and shot target, used only for printing) is not
    modelled.
- The field processes set `RND_NO` to 1 in their buffers at start-up. The model does not
  do this: every slot is overwritten by the reports before it is read.
- The positioning functions write `run`'s result over the END fields, and `runStrategy`
  starts from INIT. The model starts the move from INIT. The two are equal because
  `initInfo` copies END to INIT first, which `InitInfo` states.
- `run` writes through two pointers; the model loops over a position value instead.
- Whether all players see the same ball depends on the transport. The reached-the-ball
  facts are stated for the ball each player is given.
