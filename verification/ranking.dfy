/**
 The three figures shown with a score: the threshold rank, the adjusted
 score, and the "final classification", the rank whose value lies nearest
 to the score.
 */
module Ranking {
  import opened Answers

  datatype Rank = D | C | B | A | S

  /** The value each rank carries in the proximity table, D = 1 up to S = 5. */
  function Value(r: Rank): int
  {
    match r
    case D => 1
    case C => 2
    case B => 3
    case A => 4
    case S => 5
  }

  /** The proximity table in its declaration order, which decides ties. */
  const ProximityOrder: seq<Rank> := [D, C, B, A, S]

  function Clamp(x: int, lo: int, hi: int): int
    requires lo <= hi
  {
    if x < lo then lo else if x > hi then hi else x
  }

  /** Threshold rank: S from 40, A from 30, B from 20, C from 10, D below.
      Equivalently, one rank per full ten points, from D up to S. */
  function ThresholdRank(score: int): (r: Rank)
    ensures Value(r) == 1 + Clamp(score / 10, 0, 4)
  {
    if score >= 40 then S
    else if score >= 30 then A
    else if score >= 20 then B
    else if score >= 10 then C
    else D
  }

  /** A higher score never gets a lower threshold rank. */
  lemma ThresholdRankMonotone(s: int, t: int)
    requires s <= t
    ensures Value(ThresholdRank(s)) <= Value(ThresholdRank(t))
  {
  }

  /** The rank boundaries sit exactly on the thresholds. */
  lemma ThresholdBoundaries()
    ensures ThresholdRank(40) == S && ThresholdRank(39) == A
    ensures ThresholdRank(30) == A && ThresholdRank(29) == B
    ensures ThresholdRank(20) == B && ThresholdRank(19) == C
    ensures ThresholdRank(10) == C && ThresholdRank(9) == D
  {
  }

  /** How far a score lies from a rank's value. */
  function Distance(score: int, r: Rank): int
  {
    if score >= Value(r) then score - Value(r) else Value(r) - score
  }

  /** Position `k` of the proximity table holds a rank nearest to `score`, and
      every earlier position is strictly farther: the key `min` returns. */
  ghost predicate FirstNearest(score: int, k: int)
  {
    && 0 <= k < |ProximityOrder|
    && (forall j :: 0 <= j < |ProximityOrder| ==> Distance(score, ProximityOrder[k]) <= Distance(score, ProximityOrder[j]))
    && (forall j :: 0 <= j < k ==> Distance(score, ProximityOrder[j]) > Distance(score, ProximityOrder[k]))
  }

  /** The rank whose value is nearest to the score: D up to 1, then C, B, A
      for 2, 3, 4, and S from 5 on. */
  function NearestRank(score: int): (r: Rank)
    ensures Value(r) == Clamp(score, 1, 5)
  {
    if score <= 1 then D
    else if score == 2 then C
    else if score == 3 then B
    else if score == 4 then A
    else S
  }

  /** The nearest rank is the first nearest entry of the table, and there is
      only one first nearest entry. */
  lemma NearestRankIsFirstNearest(score: int)
    ensures FirstNearest(score, Value(NearestRank(score)) - 1)
    ensures forall k :: FirstNearest(score, k) ==> k == Value(NearestRank(score)) - 1
  {
    var n := Value(NearestRank(score)) - 1;
    assert ProximityOrder[n] == NearestRank(score);
    forall k | FirstNearest(score, k) ensures k == n {
      assert Distance(score, ProximityOrder[k]) == Distance(score, ProximityOrder[n]);
    }
  }

  /** The final classification, computed as `min` over the proximity table
      keyed by distance: scan in table order and move only to a strictly
      nearer rank. */
  method ProximityRank(score: int) returns (r: Rank)
    ensures r == NearestRank(score)
    ensures forall q :: q in ProximityOrder ==> Distance(score, r) <= Distance(score, q)
  {
    var best := 0;
    r := ProximityOrder[0];
    var i := 1;
    while i < |ProximityOrder|
      invariant 1 <= i <= |ProximityOrder|
      invariant 0 <= best < i && r == ProximityOrder[best]
      invariant forall j :: 0 <= j < i ==> Distance(score, r) <= Distance(score, ProximityOrder[j])
      invariant forall j :: 0 <= j < best ==> Distance(score, ProximityOrder[j]) > Distance(score, r)
    {
      if Distance(score, ProximityOrder[i]) < Distance(score, r) {
        best := i;
        r := ProximityOrder[i];
      }
      i := i + 1;
    }
    assert FirstNearest(score, best);
    NearestRankIsFirstNearest(score);
    assert ProximityOrder[Value(NearestRank(score)) - 1] == NearestRank(score);
  }

  /** A higher score never gets a lower final classification. */
  lemma NearestRankMonotone(s: int, t: int)
    requires s <= t
    ensures Value(NearestRank(s)) <= Value(NearestRank(t))
  {
  }

  /** The weight of an answer that is a (text, weight) pair, else 0. */
  function PairWeight(x: Entry): int
  {
    if x.answer.Pair? then x.answer.weight else 0
  }

  /** The sum of the weights found in pair answers. */
  function PairWeights(e: seq<Entry>): int
  {
    if |e| == 0 then 0 else PairWeight(e[0]) + PairWeights(e[1..])
  }

  /** The adjusted score: the score plus the weights in pair answers. */
  function AdjustedScore(score: int, e: seq<Entry>): int
  {
    score + PairWeights(e)
  }

  /** When item `i` holds the only pair answer, the adjusted score adds its
      weight once more to the score. */
  lemma {:induction false} AdjustedScoreSinglePair(score: int, e: seq<Entry>, i: nat)
    requires i < |e| && e[i].answer.Pair?
    requires forall j :: 0 <= j < |e| && j != i ==> !e[j].answer.Pair?
    ensures AdjustedScore(score, e) == score + e[i].answer.weight
  {
    SinglePairWeight(e, i);
  }

  lemma {:induction false} SinglePairWeight(e: seq<Entry>, i: nat)
    requires i < |e| && e[i].answer.Pair?
    requires forall j :: 0 <= j < |e| && j != i ==> !e[j].answer.Pair?
    ensures PairWeights(e) == e[i].answer.weight
  {
    if i == 0 {
      NoPairWeight(e[1..]);
    } else {
      SinglePairWeight(e[1..], i - 1);
    }
  }

  lemma {:induction false} NoPairWeight(e: seq<Entry>)
    requires forall j :: 0 <= j < |e| ==> !e[j].answer.Pair?
    ensures PairWeights(e) == 0
  {
    if |e| > 0 {
      NoPairWeight(e[1..]);
    }
  }
}
