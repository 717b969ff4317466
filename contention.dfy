/** Ball contention on the field process that owns the ball (match.c, in `main`): the scan
    for the largest challenge over the ten reports, and the random tie-break. The report
    buffer is indexed by rank like `playerMessage`: slots 2..11 hold the players. */
module Contention {
  import opened Field
  import opened Messages

  /** A report that takes part in the contest: not a dummy copy, and with a challenge of at
      least 0. The bound is exact: `maxBallChallenge` starts at -1, so a report with a
      negative challenge, -1 or below, never becomes the maximum nor ties it. */
  predicate Contender(r: Report)
  {
    r.x != -1 && r.chal >= 0
  }

  /** The scan's state: `maxBallChallenge`, `winBallRank` and the live part of `drawBuf`. */
  datatype Tally = Tally(maxChal: int, winRank: int, draws: seq<int>)

  /** The scan over slots 2..k-1. */
  function Scan(msgs: seq<Report>, k: int): (t: Tally)
    requires |msgs| == PROCESSES && 2 <= k <= PROCESSES
    ensures |t.draws| <= k - 2
    decreases k
  {
    if k == 2 then Tally(-1, -1, [])
    else
      var t := Scan(msgs, k - 1);
      var r := msgs[k - 1];
      if r.x == -1 || r.chal == -1 then t
      else if r.chal > t.maxChal then Tally(r.chal, k - 1, [])
      else if r.chal == t.maxChal then Tally(t.maxChal, t.winRank, t.draws + [k - 1])
      else t
  }

  /** What the scan keeps: the largest challenge among the contenders (-1 if none) and the
      first contender reaching it. */
  lemma {:induction false} ScanBest(msgs: seq<Report>, k: int)
    requires |msgs| == PROCESSES && 2 <= k <= PROCESSES
    ensures var t := Scan(msgs, k);
      (t.winRank == -1 <==> forall j :: 2 <= j < k ==> !Contender(msgs[j])) &&
      (t.winRank == -1 ==> t.maxChal == -1 && t.draws == []) &&
      (t.winRank != -1 ==>
        2 <= t.winRank < k && Contender(msgs[t.winRank]) && msgs[t.winRank].chal == t.maxChal) &&
      (forall j :: 2 <= j < k && Contender(msgs[j]) ==> msgs[j].chal <= t.maxChal) &&
      (forall j :: 2 <= j < t.winRank && Contender(msgs[j]) ==> msgs[j].chal < t.maxChal)
  {
    if k > 2 {
      ScanBest(msgs, k - 1);
    }
  }

  /** What the draw buffer holds: in increasing order, every contender after the kept one
      that reaches the same challenge, and nothing else. */
  lemma {:induction false} ScanDraws(msgs: seq<Report>, k: int)
    requires |msgs| == PROCESSES && 2 <= k <= PROCESSES
    ensures forall i :: 0 <= i < |Scan(msgs, k).draws| ==>
      2 <= Scan(msgs, k).draws[i] < k && Scan(msgs, k).winRank < Scan(msgs, k).draws[i]
    ensures forall i :: 0 <= i < |Scan(msgs, k).draws| ==>
      TiedAt(msgs, Scan(msgs, k).draws[i], Scan(msgs, k).maxChal)
    ensures forall i, j :: 0 <= i < j < |Scan(msgs, k).draws| ==> Scan(msgs, k).draws[i] < Scan(msgs, k).draws[j]
    ensures forall j :: 2 <= j < k && Scan(msgs, k).winRank < j && TiedAt(msgs, j, Scan(msgs, k).maxChal) ==>
      j in Scan(msgs, k).draws
  {
    if k > 2 {
      ScanDraws(msgs, k - 1);
      var t0, r, t := Scan(msgs, k - 1), msgs[k - 1], Scan(msgs, k);
      if r.x == -1 || r.chal == -1 || r.chal < t0.maxChal {
        assert t == t0;
        assert !TiedAt(msgs, k - 1, t0.maxChal);
      } else if r.chal > t0.maxChal {
        assert t == Tally(r.chal, k - 1, []);
      } else {
        assert t.winRank == t0.winRank && t.maxChal == t0.maxChal && t.draws == t0.draws + [k - 1];
        ScanBest(msgs, k - 1);
        assert t0.winRank < k - 1 && TiedAt(msgs, k - 1, t0.maxChal);
        assert forall i :: 0 <= i < |t0.draws| ==> t.draws[i] == t0.draws[i];
        assert t.draws[|t0.draws|] == k - 1;
      }
    }
  }

  /** Slot `j` is a contender holding exactly the challenge `m`. */
  predicate TiedAt(msgs: seq<Report>, j: int, m: int)
    requires |msgs| == PROCESSES && 0 <= j < PROCESSES
  {
    Contender(msgs[j]) && msgs[j].chal == m
  }

  /** The winner after the tie-break draw `rand() % drawCount`, taken only when more than
      one report was added to `drawBuf`. */
  function Winner(msgs: seq<Report>, roll: nat): (w: int)
    requires |msgs| == PROCESSES
    ensures w == -1 || 2 <= w < PROCESSES
  {
    ScanBest(msgs, PROCESSES);
    ScanDraws(msgs, PROCESSES);
    var t := Scan(msgs, PROCESSES);
    if |t.draws| > 1 then t.draws[roll % |t.draws|] else t.winRank
  }

  /** The winner, if any, holds the largest challenge; there is none exactly when no
      report is a contender. */
  lemma WinnerMeaning(msgs: seq<Report>, roll: nat)
    requires |msgs| == PROCESSES
    ensures var w := Winner(msgs, roll);
      (w == -1 <==> forall j :: 2 <= j < PROCESSES ==> !Contender(msgs[j])) &&
      (w != -1 ==> 2 <= w < PROCESSES && Contender(msgs[w]) && msgs[w].chal == Scan(msgs, PROCESSES).maxChal) &&
      (forall j :: 2 <= j < PROCESSES && Contender(msgs[j]) ==> msgs[j].chal <= Scan(msgs, PROCESSES).maxChal)
  {
    ScanBest(msgs, PROCESSES);
    ScanDraws(msgs, PROCESSES);
  }

  /** The first contender holding the largest challenge is the one the scan keeps. */
  lemma ScanKeepsFirst(msgs: seq<Report>, first: int)
    requires |msgs| == PROCESSES && 2 <= first < PROCESSES && Contender(msgs[first])
    requires forall j :: 2 <= j < PROCESSES && Contender(msgs[j]) ==> msgs[j].chal <= msgs[first].chal
    requires forall j :: 2 <= j < first && Contender(msgs[j]) ==> msgs[j].chal < msgs[first].chal
    ensures Scan(msgs, PROCESSES).winRank == first
    ensures Scan(msgs, PROCESSES).maxChal == msgs[first].chal
  {
    ScanBest(msgs, PROCESSES);
  }

  /** More than one entry in the draw buffer means two later ties exist, and conversely. */
  lemma DrawsAreLaterTies(msgs: seq<Report>)
    requires |msgs| == PROCESSES
    ensures var t := Scan(msgs, PROCESSES);
      |t.draws| > 1 <==>
      exists a, b :: 2 <= a < b < PROCESSES && t.winRank < a && TiedAt(msgs, a, t.maxChal) && TiedAt(msgs, b, t.maxChal)
  {
    ScanDraws(msgs, PROCESSES);
    var t := Scan(msgs, PROCESSES);
    if exists a, b :: 2 <= a < b < PROCESSES && t.winRank < a && TiedAt(msgs, a, t.maxChal) && TiedAt(msgs, b, t.maxChal) {
      var a, b :| 2 <= a < b < PROCESSES && t.winRank < a && TiedAt(msgs, a, t.maxChal) && TiedAt(msgs, b, t.maxChal);
      assert a in t.draws && b in t.draws;
    }
    if |t.draws| > 1 {
      assert 2 <= t.draws[0] < t.draws[1] < PROCESSES && t.winRank < t.draws[0];
      assert TiedAt(msgs, t.draws[0], t.maxChal) && TiedAt(msgs, t.draws[1], t.maxChal);
    }
  }

  /** The tie-break never picks the first contender to reach the largest challenge: with
      two or more later ties the draw chooses among those later ones only, and otherwise
      (in particular in a plain two-way tie) the first one wins without a draw. */
  lemma TieBreakSkipsFirst(msgs: seq<Report>, roll: nat, first: int)
    requires |msgs| == PROCESSES && 2 <= first < PROCESSES && Contender(msgs[first])
    requires forall j :: 2 <= j < PROCESSES && Contender(msgs[j]) ==> msgs[j].chal <= msgs[first].chal
    requires forall j :: 2 <= j < first && Contender(msgs[j]) ==> msgs[j].chal < msgs[first].chal
    ensures (exists a, b :: first < a < b < PROCESSES && TiedAt(msgs, a, msgs[first].chal) && TiedAt(msgs, b, msgs[first].chal))
      ==> first < Winner(msgs, roll) < PROCESSES && TiedAt(msgs, Winner(msgs, roll), msgs[first].chal)
    ensures !(exists a, b :: first < a < b < PROCESSES && TiedAt(msgs, a, msgs[first].chal) && TiedAt(msgs, b, msgs[first].chal))
      ==> Winner(msgs, roll) == first
  {
    ScanKeepsFirst(msgs, first);
    DrawsAreLaterTies(msgs);
    var t := Scan(msgs, PROCESSES);
    if |t.draws| > 1 {
      ScanDraws(msgs, PROCESSES);
      var w := t.draws[roll % |t.draws|];
      assert first < w < PROCESSES && TiedAt(msgs, w, t.maxChal);
    }
  }

  /** Two reports tied at the largest challenge: the first one seen wins, whatever the roll. */
  lemma TwoWayTieFirstSeenWins(msgs: seq<Report>, roll: nat, a: int, b: int)
    requires |msgs| == PROCESSES && 2 <= a < b < PROCESSES
    requires Contender(msgs[a]) && Contender(msgs[b]) && msgs[a].chal == msgs[b].chal
    requires forall j :: 2 <= j < PROCESSES && j != a && j != b && Contender(msgs[j]) ==> msgs[j].chal < msgs[a].chal
    ensures Winner(msgs, roll) == a
  {
    TieBreakSkipsFirst(msgs, roll, a);
  }

  /** A strictly increasing sequence holding both of two values and nothing else is the
      pair of them in order. */
  lemma IncreasingOverTwo(d: seq<int>, b: int, c: int)
    requires b < c && b in d && c in d
    requires forall i :: 0 <= i < |d| ==> d[i] == b || d[i] == c
    requires forall i, j :: 0 <= i < j < |d| ==> d[i] < d[j]
    ensures d == [b, c]
  {
    var ib :| 0 <= ib < |d| && d[ib] == b;
    var ic :| 0 <= ic < |d| && d[ic] == c;
    assert d[0] <= d[ib] && d[ic] <= d[|d| - 1];
    assert d[0] == b && d[|d| - 1] == c;
    assert d[0] < d[1] <= d[|d| - 1];
  }

  /** Three reports tied at the largest challenge: the draw is between the second and the
      third, even roll for the second and odd for the third; the first never wins. */
  lemma ThreeWayTieSkipsFirst(msgs: seq<Report>, roll: nat, a: int, b: int, c: int)
    requires |msgs| == PROCESSES && 2 <= a < b < c < PROCESSES
    requires TiedAt(msgs, a, msgs[a].chal) && TiedAt(msgs, b, msgs[a].chal) && TiedAt(msgs, c, msgs[a].chal)
    requires forall j :: 2 <= j < PROCESSES && j != a && j != b && j != c && Contender(msgs[j]) ==> msgs[j].chal < msgs[a].chal
    ensures Winner(msgs, roll) == (if roll % 2 == 0 then b else c)
  {
    ScanKeepsFirst(msgs, a);
    ScanDraws(msgs, PROCESSES);
    var d := Scan(msgs, PROCESSES).draws;
    assert b in d && c in d;
    assert forall i :: 0 <= i < |d| ==> d[i] == b || d[i] == c;
    IncreasingOverTwo(d, b, c);
  }

  /** The scan and tie-break loop, with the draw buffer as an array. */
  method ScanChallenges(msgs: seq<Report>, roll: nat) returns (winBallRank: int, maxBallChallenge: int, drawCount: int)
    requires |msgs| == PROCESSES
    ensures Scan(msgs, PROCESSES).maxChal == maxBallChallenge
    ensures |Scan(msgs, PROCESSES).draws| == drawCount
    ensures winBallRank == Winner(msgs, roll)
    ensures winBallRank == -1 <==> forall j :: 2 <= j < PROCESSES ==> !Contender(msgs[j])
    ensures winBallRank != -1 ==>
      2 <= winBallRank < PROCESSES && Contender(msgs[winBallRank]) &&
      msgs[winBallRank].chal == maxBallChallenge
    ensures forall j :: 2 <= j < PROCESSES && Contender(msgs[j]) ==> msgs[j].chal <= maxBallChallenge
  {
    var drawBuf := new int[PROCESSES];
    drawCount := 0;
    winBallRank := -1;
    maxBallChallenge := -1;
    var i := 2;
    while i < PROCESSES
      invariant 2 <= i <= PROCESSES
      invariant 0 <= drawCount <= i - 2
      invariant Scan(msgs, i) == Tally(maxBallChallenge, winBallRank, drawBuf[..drawCount])
    {
      var curr := msgs[i];
      if curr.x != -1 {
        if curr.chal == -1 {
        } else if curr.chal > maxBallChallenge {
          drawCount := 0;
          maxBallChallenge := curr.chal;
          winBallRank := i;
        } else if curr.chal == maxBallChallenge {
          drawBuf[drawCount] := i;
          drawCount := drawCount + 1;
        }
      }
      i := i + 1;
    }
    if drawCount > 1 {
      winBallRank := drawBuf[roll % drawCount];
    }
    WinnerMeaning(msgs, roll);
  }
}
