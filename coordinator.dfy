/** The field processes' part of a round (match.c, in `main`): the owner of the ball
    resolves the contest into a synchronisation record, the other one adopts the ball
    position from it, and FP0 adds the points to the score. */
module Coordinator {
  import opened Field
  import opened Messages
  import opened Contention
  import opened Shot

  /** `shotLocation` before any pass: the centre of the goal the winner's team attacks. */
  function Anchor(winner: int, round: int): (a: Pos)
    ensures a.y == 32 && (a.x == 0 || a.x == LENGTH)
    ensures a.x == LENGTH <==> (winner < 7 <==> round < HALF_TIME)
  {
    Pos(AttackGoalX(winner, round), 32)
  }

  /** The winner's team occupies slots TeamFirst(w) .. TeamEnd(w) - 1. */
  function TeamFirst(w: int): int
  {
    if w < 7 then 2 else 7
  }

  function TeamEnd(w: int): int
  {
    if w < 7 then 7 else PROCESSES
  }

  /** The pass search's state: the slot `targetTeammate` points at, and `distToGoal`. */
  datatype Pick = Pick(slot: int, dist: int)

  /** The pass search over slots lo..k-1, starting from the winner's slot and distance: a
      report of this round strictly closer to the anchor replaces the pick. */
  function PassScan(msgs: seq<Report>, lo: int, k: int, round: int, anchor: Pos, win: int, d0: int): Pick
    requires |msgs| == PROCESSES && 0 <= lo <= k <= PROCESSES
    decreases k - lo
  {
    if k == lo then Pick(win, d0)
    else
      var p := PassScan(msgs, lo, k - 1, round, anchor, win, d0);
      var d := Dist(Where(msgs[k - 1]), anchor);
      if msgs[k - 1].rnd == round && d < p.dist then Pick(k - 1, d) else p
  }

  /** The pick is the first report of this round at the smallest distance to the anchor,
      provided that distance is below the starting one; otherwise the start is kept. */
  lemma {:induction false} PassScanMeaning(msgs: seq<Report>, lo: int, k: int, round: int, anchor: Pos, win: int, d0: int)
    requires |msgs| == PROCESSES && 0 <= lo <= k <= PROCESSES
    ensures PassScan(msgs, lo, k, round, anchor, win, d0).dist <= d0
    ensures PassScan(msgs, lo, k, round, anchor, win, d0).dist == d0 ==>
      PassScan(msgs, lo, k, round, anchor, win, d0).slot == win
    ensures PassScan(msgs, lo, k, round, anchor, win, d0).dist < d0 ==>
      lo <= PassScan(msgs, lo, k, round, anchor, win, d0).slot < k &&
      msgs[PassScan(msgs, lo, k, round, anchor, win, d0).slot].rnd == round &&
      Dist(Where(msgs[PassScan(msgs, lo, k, round, anchor, win, d0).slot]), anchor)
        == PassScan(msgs, lo, k, round, anchor, win, d0).dist
    ensures forall j :: lo <= j < k && msgs[j].rnd == round ==>
      PassScan(msgs, lo, k, round, anchor, win, d0).dist <= Dist(Where(msgs[j]), anchor)
    ensures forall j :: (lo <= j < k && msgs[j].rnd == round && j < PassScan(msgs, lo, k, round, anchor, win, d0).slot &&
                         PassScan(msgs, lo, k, round, anchor, win, d0).dist < d0) ==>
      PassScan(msgs, lo, k, round, anchor, win, d0).dist < Dist(Where(msgs[j]), anchor)
  {
    if k > lo {
      PassScanMeaning(msgs, lo, k - 1, round, anchor, win, d0);
    }
  }

  /** The pass search loop of the winner's team (`for(i = 2; i < 7; …)` or
      `for(i = 7; i < 12; …)`). Besides the target and its distance it returns the slot
      `currPlayer` is left at, the team's last one, which is the slot the pass is shot
      from. */
  method FindPassTarget(msgs: seq<Report>, winner: int, round: int) returns (target: int, distToGoal: int, currPlayer: int)
    requires |msgs| == PROCESSES && 2 <= winner < PROCESSES
    ensures var anchor := Anchor(winner, round);
      Pick(target, distToGoal) ==
      PassScan(msgs, TeamFirst(winner), TeamEnd(winner), round, anchor, winner, Dist(Where(msgs[winner]), anchor))
    ensures currPlayer == TeamEnd(winner) - 1
    ensures distToGoal <= Dist(Where(msgs[winner]), Anchor(winner, round))
    ensures target != winner ==>
      TeamFirst(winner) <= target < TeamEnd(winner) && msgs[target].rnd == round &&
      distToGoal == Dist(Where(msgs[target]), Anchor(winner, round)) < Dist(Where(msgs[winner]), Anchor(winner, round))
    ensures target == winner ==> distToGoal == Dist(Where(msgs[winner]), Anchor(winner, round))
    ensures forall j :: TeamFirst(winner) <= j < TeamEnd(winner) && msgs[j].rnd == round ==>
      distToGoal <= Dist(Where(msgs[j]), Anchor(winner, round))
    ensures forall j :: TeamFirst(winner) <= j < target && msgs[j].rnd == round && target != winner ==>
      distToGoal < Dist(Where(msgs[j]), Anchor(winner, round))
  {
    var anchor := Anchor(winner, round);
    var d0 := Dist(Where(msgs[winner]), anchor);
    target, distToGoal := winner, d0;
    var i := TeamFirst(winner);
    currPlayer := i;
    while i < TeamEnd(winner)
      invariant TeamFirst(winner) <= i <= TeamEnd(winner)
      invariant i > TeamFirst(winner) ==> currPlayer == i - 1
      invariant Pick(target, distToGoal) == PassScan(msgs, TeamFirst(winner), i, round, anchor, winner, d0)
    {
      currPlayer := i;
      var d := Dist(Where(msgs[i]), anchor);
      if msgs[i].rnd == round && d < distToGoal {
        distToGoal := d;
        target := i;
      }
      i := i + 1;
    }
    PassScanMeaning(msgs, TeamFirst(winner), TeamEnd(winner), round, anchor, winner, d0);
  }

  /** Who shoots, at what, and the `distToGoal` that decides between 2 and 3 points. */
  datatype Plan = Plan(shooter: int, target: Pos, distToGoal: int)

  /** The shot of a winner not standing on the anchor. A scorer shoots at the anchor; a
      passer whose search found a teammate has the team's last slot shoot at that teammate
      (`currPlayer`, not `targetTeammate`); a passer who found none shoots at the anchor. */
  function ShotPlan(msgs: seq<Report>, w: int, round: int): (plan: Plan)
    requires |msgs| == PROCESSES && 2 <= w < PROCESSES
    ensures 2 <= plan.shooter < PROCESSES
  {
    var anchor := Anchor(w, round);
    var d0 := Dist(Where(msgs[w]), anchor);
    if msgs[w].shotType == SCORE then Plan(w, anchor, d0)
    else
      PassScanMeaning(msgs, TeamFirst(w), TeamEnd(w), round, anchor, w, d0);
      var p := PassScan(msgs, TeamFirst(w), TeamEnd(w), round, anchor, w, d0);
      if p.slot == w then Plan(w, anchor, p.dist)
      else Plan(TeamEnd(w) - 1, Where(msgs[p.slot]), p.dist)
  }

  /** Some report of this round from the winner's team is strictly closer to the anchor
      than the winner. */
  predicate CloserTeammate(msgs: seq<Report>, w: int, round: int)
    requires |msgs| == PROCESSES && 2 <= w < PROCESSES
  {
    exists j :: TeamFirst(w) <= j < TeamEnd(w) && msgs[j].rnd == round &&
      Dist(Where(msgs[j]), Anchor(w, round)) < Dist(Where(msgs[w]), Anchor(w, round))
  }

  /** What the plan is: a scorer, or a passer without a closer teammate, shoots at the
      anchor from its own report; a passer with one has the team's last slot shoot at the
      position of the first closest teammate of this round. */
  lemma ShotPlanMeaning(msgs: seq<Report>, w: int, round: int)
    requires |msgs| == PROCESSES && 2 <= w < PROCESSES
    ensures msgs[w].shotType == SCORE || !CloserTeammate(msgs, w, round) ==>
      ShotPlan(msgs, w, round) == Plan(w, Anchor(w, round), Dist(Where(msgs[w]), Anchor(w, round)))
    ensures msgs[w].shotType != SCORE && CloserTeammate(msgs, w, round) ==>
      var plan := ShotPlan(msgs, w, round);
      plan.shooter == TeamEnd(w) - 1 &&
      plan.distToGoal == Dist(plan.target, Anchor(w, round)) < Dist(Where(msgs[w]), Anchor(w, round)) &&
      (exists t :: TeamFirst(w) <= t < TeamEnd(w) && msgs[t].rnd == round && plan.target == Where(msgs[t]) &&
        (forall j :: TeamFirst(w) <= j < t && msgs[j].rnd == round ==>
          plan.distToGoal < Dist(Where(msgs[j]), Anchor(w, round)))) &&
      (forall j :: TeamFirst(w) <= j < TeamEnd(w) && msgs[j].rnd == round ==>
        plan.distToGoal <= Dist(Where(msgs[j]), Anchor(w, round)))
  {
    var anchor := Anchor(w, round);
    var d0 := Dist(Where(msgs[w]), anchor);
    PassScanMeaning(msgs, TeamFirst(w), TeamEnd(w), round, anchor, w, d0);
    var p := PassScan(msgs, TeamFirst(w), TeamEnd(w), round, anchor, w, d0);
    if msgs[w].shotType != SCORE && CloserTeammate(msgs, w, round) {
      var j :| TeamFirst(w) <= j < TeamEnd(w) && msgs[j].rnd == round && Dist(Where(msgs[j]), anchor) < d0;
      assert p.dist < d0;
      assert p.slot != w;
      assert TeamFirst(w) <= p.slot < TeamEnd(w) && msgs[p.slot].rnd == round;
    } else if msgs[w].shotType != SCORE {
      if p.dist < d0 {
        assert TeamFirst(w) <= p.slot < TeamEnd(w) && msgs[p.slot].rnd == round;
        assert CloserTeammate(msgs, w, round);
      }
    }
  }

  /** A landing point that counts as a goal: the centre of either goal line. */
  predicate IsGoalPoint(p: Pos)
  {
    p.y == 32 && (p.x == LENGTH || p.x == 0)
  }

  /** Points for a goal: 2 from closer than 24, 3 from further. */
  function GoalPoints(distToGoal: int): (points: int)
    ensures points == 2 || points == 3
    ensures points == 3 <==> distToGoal >= 24
  {
    if distToGoal < 24 then 2 else 3
  }

  /** Where the planned shot lands. */
  function Landing(msgs: seq<Report>, w: int, round: int, hits: (int, int) -> bool,
                   offsetRoll: nat, signXRoll: nat, signYRoll: nat): (landing: Pos)
    requires |msgs| == PROCESSES && 2 <= w < PROCESSES
    ensures InField(ShotPlan(msgs, w, round).target) ==> InField(landing)
    ensures var plan := ShotPlan(msgs, w, round);
      hits(ShotDistance(Where(msgs[plan.shooter]), plan.target), msgs[plan.shooter].skill) ==>
      landing == plan.target
  {
    var plan := ShotPlan(msgs, w, round);
    var shooter := msgs[plan.shooter];
    DetermineShot(shooter.skill, Where(shooter), plan.target, hits, offsetRoll, signXRoll, signYRoll)
  }

  /** The synchronisation record of the owner of the ball at `ball`. */
  function Outcome(msgs: seq<Report>, round: int, ball: Pos, tieRoll: nat, hits: (int, int) -> bool,
                   offsetRoll: nat, signXRoll: nat, signYRoll: nat): Sync
    requires |msgs| == PROCESSES
  {
    var w := Winner(msgs, tieRoll);
    if w == -1 then Sync(-1, -1, -1, ball.x, ball.y, 0, -1)
    else
      var team := if w < 7 then 0 else 1;
      var anchor := Anchor(w, round);
      if Where(msgs[w]) == anchor then Sync(w, anchor.x, anchor.y, ball.x, ball.y, 2, team)
      else
        var plan := ShotPlan(msgs, w, round);
        var landing := Landing(msgs, w, round, hits, offsetRoll, signXRoll, signYRoll);
        if IsGoalPoint(landing) then Sync(w, plan.target.x, plan.target.y, Centre.x, Centre.y, GoalPoints(plan.distToGoal), team)
        else Sync(w, plan.target.x, plan.target.y, landing.x, landing.y, 0, team)
  }

  /** The record names the contest's winner, or -1 with the ball untouched and no points
      when nobody contended; team 0 is ranks 2..6 and team 1 ranks 7..11. */
  lemma OutcomeWinner(msgs: seq<Report>, round: int, ball: Pos, tieRoll: nat, hits: (int, int) -> bool,
                      offsetRoll: nat, signXRoll: nat, signYRoll: nat)
    requires |msgs| == PROCESSES
    ensures var s := Outcome(msgs, round, ball, tieRoll, hits, offsetRoll, signXRoll, signYRoll);
      s.winner == Winner(msgs, tieRoll) &&
      (s.winner == -1 <==> forall j :: 2 <= j < PROCESSES ==> !Contender(msgs[j])) &&
      (s.winner == -1 ==> s == Sync(-1, -1, -1, ball.x, ball.y, 0, -1)) &&
      (s.winner != -1 ==>
        2 <= s.winner < PROCESSES && Contender(msgs[s.winner]) &&
        (forall j :: 2 <= j < PROCESSES && Contender(msgs[j]) ==> msgs[j].chal <= msgs[s.winner].chal) &&
        s.team == (if s.winner < 7 then 0 else 1))
  {
    WinnerMeaning(msgs, tieRoll);
  }

  /** A winner already standing on the anchor scores 2 without a shot, and the ball stays
      where it was. */
  lemma WinnerOnAnchorScoresTwo(msgs: seq<Report>, round: int, ball: Pos, tieRoll: nat, hits: (int, int) -> bool,
                                offsetRoll: nat, signXRoll: nat, signYRoll: nat)
    requires |msgs| == PROCESSES
    requires Winner(msgs, tieRoll) != -1
    requires Where(msgs[Winner(msgs, tieRoll)]) == Anchor(Winner(msgs, tieRoll), round)
    ensures var s := Outcome(msgs, round, ball, tieRoll, hits, offsetRoll, signXRoll, signYRoll);
      s.points == 2 && BallAfter(s) == ball && Pos(s.shotX, s.shotY) == Anchor(Winner(msgs, tieRoll), round)
  {
  }

  /** Any other winner shoots: a landing on a goal centre scores by the distance and puts
      the ball back in the centre, any other landing scores nothing and the ball is left
      where it landed. */
  lemma ShotDecidesScore(msgs: seq<Report>, round: int, ball: Pos, tieRoll: nat, hits: (int, int) -> bool,
                         offsetRoll: nat, signXRoll: nat, signYRoll: nat)
    requires |msgs| == PROCESSES
    requires Winner(msgs, tieRoll) != -1
    requires Where(msgs[Winner(msgs, tieRoll)]) != Anchor(Winner(msgs, tieRoll), round)
    ensures var w := Winner(msgs, tieRoll);
      var s := Outcome(msgs, round, ball, tieRoll, hits, offsetRoll, signXRoll, signYRoll);
      var landing := Landing(msgs, w, round, hits, offsetRoll, signXRoll, signYRoll);
      Pos(s.shotX, s.shotY) == ShotPlan(msgs, w, round).target &&
      (IsGoalPoint(landing) ==>
        BallAfter(s) == Centre && (s.points == 3 <==> ShotPlan(msgs, w, round).distToGoal >= 24) && s.points != 0) &&
      (!IsGoalPoint(landing) ==> s.points == 0 && BallAfter(s) == landing)
  {
  }

  /** A scoring attempt that hits from a spot other than the anchor is a goal. */
  lemma HitScores(msgs: seq<Report>, round: int, ball: Pos, tieRoll: nat, hits: (int, int) -> bool,
                  offsetRoll: nat, signXRoll: nat, signYRoll: nat)
    requires |msgs| == PROCESSES
    requires Winner(msgs, tieRoll) != -1
    requires var w := Winner(msgs, tieRoll);
      Where(msgs[w]) != Anchor(w, round) && msgs[w].shotType == SCORE &&
      hits(ShotDistance(Where(msgs[w]), Anchor(w, round)), msgs[w].skill)
    ensures var s := Outcome(msgs, round, ball, tieRoll, hits, offsetRoll, signXRoll, signYRoll);
      BallAfter(s) == Centre &&
      s.points == GoalPoints(Dist(Where(msgs[Winner(msgs, tieRoll)]), Anchor(Winner(msgs, tieRoll), round)))
  {
  }

  /** Points are 0, 2 or 3 and go to a team only when there is a winner; three points
      always come with the ball back in the centre. */
  lemma PointsAreZeroTwoOrThree(msgs: seq<Report>, round: int, ball: Pos, tieRoll: nat, hits: (int, int) -> bool,
                                offsetRoll: nat, signXRoll: nat, signYRoll: nat)
    requires |msgs| == PROCESSES
    ensures var s := Outcome(msgs, round, ball, tieRoll, hits, offsetRoll, signXRoll, signYRoll);
      (s.points == 0 || s.points == 2 || s.points == 3) &&
      (s.points > 0 ==> s.team == 0 || s.team == 1) &&
      (s.points == 3 ==> BallAfter(s) == Centre)
  {
  }

  /** With the ball and every player's report on the field, the ball stays on the field. */
  lemma BallStaysOnField(msgs: seq<Report>, round: int, ball: Pos, tieRoll: nat, hits: (int, int) -> bool,
                         offsetRoll: nat, signXRoll: nat, signYRoll: nat)
    requires |msgs| == PROCESSES
    requires InField(ball)
    requires forall j :: 2 <= j < PROCESSES ==> InField(Where(msgs[j]))
    ensures InField(BallAfter(Outcome(msgs, round, ball, tieRoll, hits, offsetRoll, signXRoll, signYRoll)))
  {
    var w := Winner(msgs, tieRoll);
    if w != -1 && Where(msgs[w]) != Anchor(w, round) {
      ShotPlanMeaning(msgs, w, round);
      var plan := ShotPlan(msgs, w, round);
      if msgs[w].shotType != SCORE && CloserTeammate(msgs, w, round) {
        var t :| TeamFirst(w) <= t < TeamEnd(w) && msgs[t].rnd == round && plan.target == Where(msgs[t]) &&
          (forall j :: TeamFirst(w) <= j < t && msgs[j].rnd == round ==>
            plan.distToGoal < Dist(Where(msgs[j]), Anchor(w, round)));
        assert InField(plan.target);
      }
    }
  }

  /** FP0's score after folding in a record: the points go to the record's team; a record
      without a team (no winner) changes nothing. */
  function Tallied(score: seq<int>, info: Sync): (after: seq<int>)
    requires |score| == 2
    ensures |after| == 2
    ensures after[0] + after[1] == score[0] + score[1] + (if info.team == 0 || info.team == 1 then info.points else 0)
    ensures info.team != 0 ==> after[0] == score[0]
    ensures info.team != 1 ==> after[1] == score[1]
  {
    if info.team == 0 || info.team == 1 then score[info.team := score[info.team] + info.points] else score
  }

  /** No round lowers either team's score. */
  lemma ScoresNeverDecrease(score: seq<int>, msgs: seq<Report>, round: int, ball: Pos, tieRoll: nat,
                            hits: (int, int) -> bool, offsetRoll: nat, signXRoll: nat, signYRoll: nat)
    requires |score| == 2 && |msgs| == PROCESSES
    ensures var after := Tallied(score, Outcome(msgs, round, ball, tieRoll, hits, offsetRoll, signXRoll, signYRoll));
      score[0] <= after[0] && score[1] <= after[1] &&
      after[0] + after[1] - score[0] - score[1] in {0, 2, 3}
  {
    PointsAreZeroTwoOrThree(msgs, round, ball, tieRoll, hits, offsetRoll, signXRoll, signYRoll);
  }

  /** A field process: its rank, its copy of the ball position `ballCoords`, and the
      `score` pair, which only FP0 updates. */
  class FieldCoordinator {
    const rank: int
    var ball: Pos
    const score: array<int>

    predicate Valid()
      reads this
    {
      (rank == FP0 || rank == FP1) && score.Length == 2
    }

    constructor (rank: int)
      requires rank == FP0 || rank == FP1
      ensures Valid() && this.rank == rank && ball == Centre
      ensures fresh(score) && score[..] == [0, 0]
    {
      this.rank := rank;
      ball := Centre;
      score := new int[2](_ => 0);
    }

    /** The owner's resolution (match.c, the `if(rank == fieldProcess(ballCoords))` branch):
        contest, anchor, shot or pass, points, and the record sent to the peer. */
    method ResolveChallenge(msgs: seq<Report>, round: int, tieRoll: nat, hits: (int, int) -> bool,
                            offsetRoll: nat, signXRoll: nat, signYRoll: nat) returns (info: Sync)
      requires Valid() && |msgs| == PROCESSES && rank == FieldProcess(ball)
      modifies this
      ensures Valid()
      ensures info == Outcome(msgs, round, old(ball), tieRoll, hits, offsetRoll, signXRoll, signYRoll)
      ensures ball == BallAfter(info)
    {
      var winBallRank, maxBallChallenge, drawCount := ScanChallenges(msgs, tieRoll);
      if winBallRank > 0 {
        var winner := msgs[winBallRank];
        var shotLocation := Anchor(winBallRank, round);
        var points := 0;
        var distToGoal := Dist(Where(winner), shotLocation);
        if Where(winner) == shotLocation {
          points := 2;
        } else {
          if winner.shotType == SCORE {
            ball := DetermineShot(winner.skill, Where(winner), shotLocation, hits, offsetRoll, signXRoll, signYRoll);
          } else {
            var target, d, currPlayer := FindPassTarget(msgs, winBallRank, round);
            distToGoal := d;
            if target != winBallRank {
              shotLocation := Where(msgs[target]);
              var shooter := msgs[currPlayer];
              ball := DetermineShot(shooter.skill, Where(shooter), shotLocation, hits, offsetRoll, signXRoll, signYRoll);
            } else {
              ball := DetermineShot(winner.skill, Where(winner), shotLocation, hits, offsetRoll, signXRoll, signYRoll);
            }
          }
          if ball.y == 32 && (ball.x == 128 || ball.x == 0) {
            points := if distToGoal < 24 then 2 else 3;
            ball := Centre;
          }
        }
        info := Sync(winBallRank, shotLocation.x, shotLocation.y, ball.x, ball.y, points,
                     if winBallRank < 7 then 0 else 1);
      } else {
        info := Sync(winBallRank, -1, -1, ball.x, ball.y, 0, -1);
      }
    }

    /** The field process without the ball takes the ball position from the record. */
    method AdoptSync(info: Sync)
      requires Valid()
      modifies this
      ensures Valid()
      ensures ball == BallAfter(info)
    {
      ball := BallAfter(info);
    }

    /** FP0 folds the record into the score and the ball position. */
    method FoldSync(info: Sync)
      requires Valid() && rank == FP0
      modifies this, score
      ensures Valid()
      ensures score[..] == Tallied(old(score[..]), info)
      ensures ball == BallAfter(info)
    {
      if info.team == 0 || info.team == 1 {
        score[info.team] := score[info.team] + info.points;
      }
      ball := BallAfter(info);
    }
  }

  /** The field processes' part of one round: the owner resolves from the reports it
      received, the other adopts the record, FP0 folds it in. Both end with the same ball,
      which is the record's. */
  method FieldRound(fp0: FieldCoordinator, fp1: FieldCoordinator, msgs0: seq<Report>, msgs1: seq<Report>,
                    round: int, tieRoll: nat, hits: (int, int) -> bool,
                    offsetRoll: nat, signXRoll: nat, signYRoll: nat) returns (info: Sync)
    requires fp0.Valid() && fp1.Valid() && fp0.rank == FP0 && fp1.rank == FP1
    requires fp0 != fp1 && fp0.score != fp1.score && fp0.ball == fp1.ball
    requires |msgs0| == |msgs1| == PROCESSES
    modifies fp0, fp1, fp0.score
    ensures fp0.Valid() && fp1.Valid()
    ensures info == Outcome(if FieldProcess(old(fp0.ball)) == FP0 then msgs0 else msgs1, round, old(fp0.ball),
                            tieRoll, hits, offsetRoll, signXRoll, signYRoll)
    ensures fp0.ball == fp1.ball == BallAfter(info)
    ensures fp0.score[..] == Tallied(old(fp0.score[..]), info)
    ensures fp1.score[..] == old(fp1.score[..])
  {
    if FieldProcess(fp0.ball) == FP0 {
      info := fp0.ResolveChallenge(msgs0, round, tieRoll, hits, offsetRoll, signXRoll, signYRoll);
      fp1.AdoptSync(info);
    } else {
      info := fp1.ResolveChallenge(msgs1, round, tieRoll, hits, offsetRoll, signXRoll, signYRoll);
      fp0.AdoptSync(info);
    }
    fp0.FoldSync(info);
  }
}
