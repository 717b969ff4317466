/** One round of a player process (match.c, in `main` and `initInfo`): the per-round
    record `playerInfo`, the move, and the two copies of the report sent to the field
    processes. The `> 0.6` shot-type test is an oracle `prefersShot(distance, shooting)`;
    the challenge draw `rand()` is an input. */
module Players {
  import opened Field
  import opened Messages
  import opened Movement
  import opened Contention

  /** Layout of `playerInfo` (`PLYR_INFO_SIZE` ints). */
  const PLYR_INFO_SIZE := 9
  const INIT_X := 0
  const INIT_Y := 1
  const END_X := 2
  const END_Y := 3
  const REACH_RND := 4
  const WIN_RND := 5
  const CHALLENGE := 6
  const SHOOT_X := 7
  const SHOOT_Y := 8

  /** The roster switch and the reset after it: start position in both INIT and END, flags
      cleared, challenge and shot target at -1. */
  method Enlist(info: array<int>, rank: int) returns (s: Setup)
    requires info.Length == PLYR_INFO_SIZE && 2 <= rank < PROCESSES
    modifies info
    ensures s == Roster(rank)
    ensures info[..] == [s.start.x, s.start.y, s.start.x, s.start.y, 0, 0, -1, -1, -1]
  {
    s := Roster(rank);
    info[INIT_X], info[END_X] := s.start.x, s.start.x;
    info[INIT_Y], info[END_Y] := s.start.y, s.start.y;
    info[REACH_RND], info[WIN_RND] := 0, 0;
    info[CHALLENGE], info[SHOOT_X], info[SHOOT_Y] := -1, -1, -1;
  }

  /** `initInfo`: last round's end becomes this round's start, the flags are cleared and
      challenge and shot target go back to -1; the end position is left as it was. */
  method InitInfo(info: array<int>)
    requires info.Length == PLYR_INFO_SIZE
    modifies info
    ensures info[..] == [old(info[END_X]), old(info[END_Y]), old(info[END_X]), old(info[END_Y]), 0, 0, -1, -1, -1]
  {
    info[INIT_X] := info[END_X];
    info[INIT_Y] := info[END_Y];
    info[REACH_RND], info[WIN_RND] := 0, 0;
    info[CHALLENGE], info[SHOOT_X], info[SHOOT_Y] := -1, -1, -1;
  }

  /** The challenge score `(rand() % 10 + 1) * dribbling`: between one and ten times the
      dribbling skill. */
  function Challenge(dribbling: int, challengeRoll: nat): (c: int)
    ensures dribbling >= 0 ==> dribbling <= c <= 10 * dribbling
    ensures dribbling > 0 ==> c % dribbling == 0
  {
    var k := challengeRoll % 10 + 1;
    ScaleBounds(k, dribbling);
    k * dribbling
  }

  lemma ScaleBounds(k: int, d: int)
    requires 1 <= k <= 10
    ensures d >= 0 ==> d <= k * d <= 10 * d
    ensures d > 0 ==> (k * d) % d == 0
  {
    if d > 0 {
      assert k * d == d + (k - 1) * d;
      assert (k - 1) * d <= 9 * d;
    }
  }

  /** The distance from a player's end position to the centre of the goal it attacks,
      which feeds the shot-type decision. */
  function GoalDistance(rank: int, round: int, end: Pos): nat
  {
    Dist(end, Pos(AttackGoalX(rank, round), 32))
  }

  /** What one player sends in a round: the field process it sends the full report to (the
      owner of the ball as it sees it), that report, and the copy for the other one. */
  datatype Outbox = Outbox(owner: int, toOwner: Report, toOther: Report)

  /** The copy field process `fp` receives. */
  function Delivered(o: Outbox, fp: int): Report
  {
    if fp == o.owner then o.toOwner else o.toOther
  }

  /** The two reports of a player ending the move at `end`. One that reached the ball sends
      its challenge and shot type to the owner and a copy marked X == -1 to the other field
      process; one that did not sends the same report with challenge and shot type -1 to
      both. */
  function MakeReports(rank: int, round: int, ball: Pos, end: Pos, shooting: int, dribbling: int,
                       prefersShot: (int, int) -> bool, challengeRoll: nat): (o: Outbox)
    ensures o.owner == FieldProcess(ball)
    ensures o.toOwner.rank == o.toOther.rank == rank
    ensures o.toOwner.rnd == o.toOther.rnd == round
    ensures o.toOwner.skill == o.toOther.skill == shooting
    ensures o.toOwner.y == o.toOther.y == end.y && o.toOwner.x == end.x
    ensures end == ball ==>
      o.toOther == o.toOwner.(x := -1) &&
      (dribbling >= 0 ==> dribbling <= o.toOwner.chal <= 10 * dribbling)
    ensures end == ball ==>
      (o.toOwner.shotType == SCORE <==> prefersShot(GoalDistance(rank, round, end), shooting)) &&
      (o.toOwner.shotType == SCORE || o.toOwner.shotType == PASS)
    ensures end != ball ==>
      o.toOther == o.toOwner && o.toOwner.chal == -1 && o.toOwner.shotType == -1
  {
    var fp := FieldProcess(ball);
    if end == ball then
      var shotType := if prefersShot(GoalDistance(rank, round, end), shooting) then SCORE else PASS;
      var msg := Report(end.x, end.y, rank, Challenge(dribbling, challengeRoll), shotType, shooting, round);
      Outbox(fp, msg, msg.(x := -1))
    else
      var msg := Report(end.x, end.y, rank, -1, -1, shooting, round);
      Outbox(fp, msg, msg)
  }

  /** Only a player on the ball takes part in the owner's contest, and nobody takes part in
      the other field process's. */
  lemma ContendsIffOnBall(rank: int, round: int, ball: Pos, end: Pos, shooting: int, dribbling: int,
                          prefersShot: (int, int) -> bool, challengeRoll: nat, fp: int)
    requires dribbling >= 1 && end.x != -1
    ensures var o := MakeReports(rank, round, ball, end, shooting, dribbling, prefersShot, challengeRoll);
      Contender(Delivered(o, fp)) <==> end == ball && fp == FieldProcess(ball)
  {
  }

  /** A field process's message buffer after the ten receives: slot `i` holds what player
      `i` sent it (slots 0 and 1 are never read). */
  function Inbox(outs: seq<Outbox>, fp: int): seq<Report>
    requires |outs| == PROCESSES
  {
    seq(PROCESSES, i requires 0 <= i < PROCESSES => Delivered(outs[i], fp))
  }

  /** When every player reports from the field as it does, the owner's contest has a winner
      exactly when some player reached the ball, and the winner is one of those; the other
      field process's contest never has one. */
  lemma ContestIsAmongBallReachers(outs: seq<Outbox>, ends: seq<Pos>, round: int, ball: Pos,
                                   prefersShot: (int, int) -> bool, rolls: seq<nat>, tieRoll: nat)
    requires |outs| == |ends| == |rolls| == PROCESSES
    requires forall i :: 2 <= i < PROCESSES ==> InField(ends[i])
    requires forall i :: 2 <= i < PROCESSES ==>
      outs[i] == MakeReports(i, round, ball, ends[i], Roster(i).shooting, Roster(i).dribbling, prefersShot, rolls[i])
    ensures var w := Winner(Inbox(outs, FieldProcess(ball)), tieRoll);
      (w == -1 <==> forall i :: 2 <= i < PROCESSES ==> ends[i] != ball) &&
      (w != -1 ==> 2 <= w < PROCESSES && ends[w] == ball)
    ensures Winner(Inbox(outs, 1 - FieldProcess(ball)), tieRoll) == -1
  {
    var fp := FieldProcess(ball);
    var mine, other := Inbox(outs, fp), Inbox(outs, 1 - fp);
    forall i | 2 <= i < PROCESSES
      ensures Contender(mine[i]) <==> ends[i] == ball
      ensures !Contender(other[i])
    {
      ContendsIffOnBall(i, round, ball, ends[i], Roster(i).shooting, Roster(i).dribbling, prefersShot, rolls[i], fp);
      ContendsIffOnBall(i, round, ball, ends[i], Roster(i).shooting, Roster(i).dribbling, prefersShot, rolls[i], 1 - fp);
    }
    WinnerMeaning(mine, tieRoll);
    WinnerMeaning(other, tieRoll);
  }

  /** A player process's round on its `playerInfo` record: reset, move by `runStrategy`
      from the start position toward the END fields, record whether the ball was reached
      and with which challenge, and build the two reports. */
  method PlayerRound(info: array<int>, rank: int, round: int, ball: Pos, s: Setup,
                     prefersShot: (int, int) -> bool, challengeRoll: nat) returns (o: Outbox)
    requires info.Length == PLYR_INFO_SIZE && 2 <= rank < PROCESSES
    modifies info
    ensures var start := Pos(old(info[END_X]), old(info[END_Y]));
      var end := Strategy(rank, ball, start, s.speed);
      info[..] == [start.x, start.y, end.x, end.y, if end == ball then 1 else 0, 0,
                   if end == ball then o.toOwner.chal else -1, -1, -1] &&
      o == MakeReports(rank, round, ball, end, s.shooting, s.dribbling, prefersShot, challengeRoll)
    ensures Dist(Pos(info[INIT_X], info[INIT_Y]), Pos(info[END_X], info[END_Y])) <= s.speed
    ensures info[REACH_RND] == 1 <==> Dist(Pos(info[INIT_X], info[INIT_Y]), ball) <= s.speed
    ensures InField(Pos(info[INIT_X], info[INIT_Y])) && InField(ball) ==> InField(Pos(info[END_X], info[END_Y]))
  {
    InitInfo(info);
    var start := Pos(info[INIT_X], info[INIT_Y]);
    var end := RunStrategy(rank, round, ball, start, s.speed);
    info[END_X], info[END_Y] := end.x, end.y;
    o := MakeReports(rank, round, ball, end, s.shooting, s.dribbling, prefersShot, challengeRoll);
    if end == ball {
      info[REACH_RND] := 1;
      info[CHALLENGE] := o.toOwner.chal;
    }
  }
}
