/** `classify_investment_type` (emotion.py, lines 96-106): five bands of
    the total score, each naming an investment risk profile. */
module Risk {

  /** The five profiles, from the most cautious to the most aggressive. */
  datatype InvestmentType =
    | Stable            // 안정형
    | StabilitySeeking  // 안정추구형
    | RiskNeutral       // 위험중립형
    | Active            // 적극투자형
    | Aggressive        // 공격투자형

  /** The position of a profile in the cautious-to-aggressive order. */
  function Rank(t: InvestmentType): (r: nat)
    ensures r < 5
  {
    match t
    case Stable => 0
    case StabilitySeeking => 1
    case RiskNeutral => 2
    case Active => 3
    case Aggressive => 4
  }

  /** The upper boundaries of the four lower bands; each boundary belongs to
      the band below it. */
  const Thresholds: seq<int> := [-10, -5, 0, 5]

  function ClassifyInvestmentType(totalScore: int): (t: InvestmentType)
    ensures t == Stable <==> totalScore <= -10
    ensures t == StabilitySeeking <==> -10 < totalScore <= -5
    ensures t == RiskNeutral <==> -5 < totalScore <= 0
    ensures t == Active <==> 0 < totalScore <= 5
    ensures t == Aggressive <==> 5 < totalScore
  {
    if totalScore <= -10 then Stable
    else if -10 < totalScore <= -5 then StabilitySeeking
    else if -5 < totalScore <= 0 then RiskNeutral
    else if 0 < totalScore <= 5 then Active
    else Aggressive
  }

  /** How many of the given boundaries lie strictly below `x`. */
  function CountBelow(bounds: seq<int>, x: int): (n: nat)
    ensures n <= |bounds|
  {
    if bounds == [] then 0
    else (if bounds[0] < x then 1 else 0) + CountBelow(bounds[1..], x)
  }

  /** An independent reading of the classifier: the rank of the profile is
      the number of band boundaries the total lies above. */
  lemma RankCountsThresholds(totalScore: int)
    ensures Rank(ClassifyInvestmentType(totalScore)) == CountBelow(Thresholds, totalScore)
  {
    var b := Thresholds;
    assert b[1..] == [-5, 0, 5] && b[1..][1..] == [0, 5] && b[1..][1..][1..] == [5];
    assert CountBelow([5], totalScore) == (if 5 < totalScore then 1 else 0);
    assert CountBelow([0, 5], totalScore) == (if 0 < totalScore then 1 else 0) + CountBelow([5], totalScore);
    assert CountBelow([-5, 0, 5], totalScore) == (if -5 < totalScore then 1 else 0) + CountBelow([0, 5], totalScore);
  }

  /** Raising `x` never lowers the number of boundaries below it. */
  lemma {:induction false} CountBelowMonotone(bounds: seq<int>, x: int, y: int)
    requires x <= y
    ensures CountBelow(bounds, x) <= CountBelow(bounds, y)
  {
    if bounds != [] {
      CountBelowMonotone(bounds[1..], x, y);
    }
  }

  /** A larger total never yields a more cautious profile. */
  lemma ClassifyMonotone(x: int, y: int)
    requires x <= y
    ensures Rank(ClassifyInvestmentType(x)) <= Rank(ClassifyInvestmentType(y))
  {
    RankCountsThresholds(x);
    RankCountsThresholds(y);
    CountBelowMonotone(Thresholds, x, y);
  }

  /** The boundary values -10, -5, 0 and 5 fall in the lower of the two
      bands they separate. */
  lemma BoundariesBelongBelow()
    ensures ClassifyInvestmentType(-10) == Stable && ClassifyInvestmentType(-9) == StabilitySeeking
    ensures ClassifyInvestmentType(-5) == StabilitySeeking && ClassifyInvestmentType(-4) == RiskNeutral
    ensures ClassifyInvestmentType(0) == RiskNeutral && ClassifyInvestmentType(1) == Active
    ensures ClassifyInvestmentType(5) == Active && ClassifyInvestmentType(6) == Aggressive
  {
  }
}
