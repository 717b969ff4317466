/** `determineShot` (match.c): where a shot or pass lands. The floating-point probability
    test is an oracle `hits(distance, skill)`, true when the uniform draw is at most
    `getShotProbability(distance, skill)`; the three `rand()` draws of a miss are inputs. */
module Shot {
  import opened Field

  /** The distance `determineShot` passes to the probability: the second term is written
      `abs((*ballCoords+1)-(*shotCoords+1))`, which adds 1 to the X values instead of
      reading Y, so it is twice the X distance. */
  function ShotDistance(origin: Pos, target: Pos): nat
  {
    Abs(origin.x - target.x) + Abs((origin.x + 1) - (target.x + 1))
  }

  lemma ShotDistanceIgnoresY(origin: Pos, target: Pos)
    ensures ShotDistance(origin, target) == 2 * Abs(origin.x - target.x)
    ensures forall oy, ty :: ShotDistance(Pos(origin.x, oy), Pos(target.x, ty)) == ShotDistance(origin, target)
  {
  }

  /** The miss magnitude `ranLocation / 2`, with `ranLocation = rand() % 8 + 1`. */
  function MissMagnitude(offsetRoll: nat): (m: int)
    ensures 0 <= m <= 4
  {
    (offsetRoll % 8 + 1) / 2
  }

  /** `minus = rand() % 2`: a zero moves the coordinate down, a one moves it up. */
  function Signed(magnitude: int, signRoll: nat): int
  {
    if signRoll % 2 == 0 then -magnitude else magnitude
  }

  /** The X clamp of a miss: past the right goal line to 108, past the left one to 20. */
  function ClampX(x: int): (r: int)
    ensures 0 <= r <= LENGTH
    ensures 0 <= x <= LENGTH ==> r == x
  {
    if x > 128 then 108 else if x < 0 then 20 else x
  }

  /** The Y clamp of a miss: onto the nearest side line. */
  function ClampY(y: int): (r: int)
    ensures 0 <= r <= WIDTH
    ensures 0 <= y <= WIDTH ==> r == y
  {
    if y > 64 then 64 else if y < 0 then 0 else y
  }

  /** `determineShot`: a hit lands on the target; a miss shifts both axes by the same
      magnitude with independently drawn signs and clamps the result onto the field. */
  function DetermineShot(shootSkill: int, origin: Pos, target: Pos, hits: (int, int) -> bool,
                         offsetRoll: nat, signXRoll: nat, signYRoll: nat): (out: Pos)
    ensures hits(ShotDistance(origin, target), shootSkill) ==> out == target
    ensures !hits(ShotDistance(origin, target), shootSkill) ==>
      var m := MissMagnitude(offsetRoll);
      var rx := target.x + Signed(m, signXRoll);
      var ry := target.y + Signed(m, signYRoll);
      InField(out) &&
      (0 <= rx <= LENGTH ==> out.x == rx) && (rx > LENGTH ==> out.x == 108) && (rx < 0 ==> out.x == 20) &&
      (0 <= ry <= WIDTH ==> out.y == ry) && (ry > WIDTH ==> out.y == WIDTH) && (ry < 0 ==> out.y == 0)
    ensures InField(target) ==> InField(out)
  {
    if hits(ShotDistance(origin, target), shootSkill) then target
    else
      var m := MissMagnitude(offsetRoll);
      Pos(ClampX(target.x + Signed(m, signXRoll)), ClampY(target.y + Signed(m, signYRoll)))
  }

  /** A miss that no clamp touches is off the target by the same magnitude, at most 4, on
      both axes. */
  lemma MissSharesMagnitude(shootSkill: int, origin: Pos, target: Pos, hits: (int, int) -> bool,
                            offsetRoll: nat, signXRoll: nat, signYRoll: nat)
    requires !hits(ShotDistance(origin, target), shootSkill)
    requires 4 <= target.x <= LENGTH - 4 && 4 <= target.y <= WIDTH - 4
    ensures var out := DetermineShot(shootSkill, origin, target, hits, offsetRoll, signXRoll, signYRoll);
      Abs(out.x - target.x) == Abs(out.y - target.y) == MissMagnitude(offsetRoll) <= 4
  {
  }

  /** Where the shooter stands matters only through its X coordinate. */
  lemma ShotIgnoresOriginY(shootSkill: int, origin: Pos, y: int, target: Pos, hits: (int, int) -> bool,
                           offsetRoll: nat, signXRoll: nat, signYRoll: nat)
    ensures DetermineShot(shootSkill, Pos(origin.x, y), target, hits, offsetRoll, signXRoll, signYRoll)
         == DetermineShot(shootSkill, origin, target, hits, offsetRoll, signXRoll, signYRoll)
  {
  }

  /** A shot at a goal centre that misses still lands on it exactly when the magnitude
      is 0, that is when `ranLocation` came out as 1. */
  lemma MissAtGoalScoresOnlyWithoutOffset(shootSkill: int, origin: Pos, goalX: int, hits: (int, int) -> bool,
                                          offsetRoll: nat, signXRoll: nat, signYRoll: nat)
    requires goalX == 0 || goalX == LENGTH
    requires !hits(ShotDistance(origin, Pos(goalX, 32)), shootSkill)
    ensures var out := DetermineShot(shootSkill, origin, Pos(goalX, 32), hits, offsetRoll, signXRoll, signYRoll);
      (out.y == 32 && (out.x == 0 || out.x == LENGTH)) <==> offsetRoll % 8 == 0
  {
  }
}
