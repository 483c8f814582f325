/**
 * The placement-based rating formula of version 3: a base score per
 * placement, scaled by opponent strength, by the player's standing in their
 * team and by a rating curve, then clamped to 15% of the rating or 150 points.
 */
module AdvancedRating {

  import Common

  /** `PLACEMENT_SCORES[1..30]`, placement 1 first. */
  const PlacementScores: seq<int> := [
    50, 35, 25, 18, 12, 8, 4, 0, -5, -10,
    -16, -23, -31, -40, -50, -62, -75, -89, -104, -120,
    -138, -157, -177, -198, -220, -243, -267, -292, -318, -345]

  /** The table entry for a placement in 1..30. */
  function TableScore(placement: int): int
    requires 1 <= placement <= 30
  {
    PlacementScores[placement - 1]
  }

  /** The table starts at +50, is neutral at 8, bottoms out at -345, and each placement scores strictly less than the one before. */
  lemma TableShape()
    ensures |PlacementScores| == 30
    ensures TableScore(1) == 50 && TableScore(8) == 0 && TableScore(30) == -345
    ensures forall p, q :: 1 <= p < q <= 30 ==> TableScore(p) > TableScore(q)
  {
    forall p, q | 1 <= p < q <= 30 ensures TableScore(p) > TableScore(q) {
      TableStep(p, q);
    }
  }

  lemma {:induction false} TableStep(p: int, q: int)
    requires 1 <= p < q <= 30
    ensures TableScore(p) > TableScore(q)
    decreases q - p
  {
    if q > p + 1 {
      TableStep(p, q - 1);
      TableStep(q - 1, q);
    } else {
      assert forall i :: 0 <= i < 29 ==> PlacementScores[i] > PlacementScores[i + 1];
    }
  }

  /**
   * `_interpolate_placement_score`: the ends of the table outside 1..30, a
   * linear interpolation between the nearest table neighbours inside.
   */
  function InterpolatePlacementScore(placement: int): real {
    if placement < 1 then TableScore(1) as real
    else if placement > 30 then TableScore(30) as real
    else
      var lowerRank := if placement >= 2 then placement - 1 else 1;
      var upperRank := if placement <= 29 then placement + 1 else 30;
      var lowerScore := TableScore(lowerRank) as real;
      var upperScore := TableScore(upperRank) as real;
      var ratio := (placement - lowerRank) as real / (upperRank - lowerRank) as real;
      lowerScore + (upperScore - lowerScore) * ratio
  }

  /** `calculate_base_placement_score`: the table inside 1..30, the interpolation elsewhere. */
  function BasePlacementScore(placement: int): real {
    if 1 <= placement <= 30 then TableScore(placement) as real
    else InterpolatePlacementScore(placement)
  }

  /** Placements below 1 score +50, placements above 30 score -345; the sign follows the table. */
  lemma BasePlacementScoreShape(placement: int)
    ensures placement < 1 ==> BasePlacementScore(placement) == 50.0
    ensures placement > 30 ==> BasePlacementScore(placement) == -345.0
    ensures BasePlacementScore(placement) > 0.0 <==> placement <= 7
    ensures BasePlacementScore(placement) == 0.0 <==> placement == 8
    ensures BasePlacementScore(placement) < 0.0 <==> placement >= 9
  {
    TableShape();
    if 1 <= placement <= 30 {
      if placement < 8 {
        TableStep(placement, 8);
      } else if placement > 8 {
        TableStep(8, placement);
      }
    }
  }

  /** The interpolation reproduces the table at its two ends. */
  lemma InterpolationAtEnds()
    ensures InterpolatePlacementScore(1) == 50.0
    ensures InterpolatePlacementScore(30) == -345.0
  {
  }

  /** The multiplier for the average opponent strength before the placement adjustment. */
  function StrengthStep(strengthDiff: real): real {
    if strengthDiff > 500.0 then 2.2
    else if strengthDiff > 300.0 then 1.8
    else if strengthDiff > 150.0 then 1.4
    else if strengthDiff > 50.0 then 1.2
    else if strengthDiff > -50.0 then 1.0
    else if strengthDiff > -150.0 then 0.8
    else if strengthDiff > -300.0 then 0.6
    else if strengthDiff > -500.0 then 0.4
    else 0.2
  }

  /** Stronger opponents never lower the step multiplier, which takes one of nine values from 0.2 to 2.2. */
  lemma StrengthStepMonotone(d1: real, d2: real)
    requires d1 <= d2
    ensures StrengthStep(d1) <= StrengthStep(d2)
    ensures StrengthStep(d1) in {0.2, 0.4, 0.6, 0.8, 1.0, 1.2, 1.4, 1.8, 2.2}
  {
  }

  /** Average opponent rating minus the team's average: positive when the opponents are stronger. */
  function StrengthDiff(teamAvgRating: real, opponentAvgRatings: seq<real>): real
    requires |opponentAvgRatings| > 0
  {
    Common.SumReal(opponentAvgRatings) / (|opponentAvgRatings| as real) - teamAvgRating
  }

  /** `calculate_opponent_strength_multiplier`. */
  function OpponentStrengthMultiplier(teamAvgRating: real, opponentAvgRatings: seq<real>, placement: int): real {
    if |opponentAvgRatings| == 0 then 1.0
    else
      var strengthDiff := StrengthDiff(teamAvgRating, opponentAvgRatings);
      var baseMultiplier := StrengthStep(strengthDiff);
      if placement <= 3 && strengthDiff < -200.0 then baseMultiplier * 0.7
      else if placement >= 15 && strengthDiff > 200.0 then baseMultiplier * 1.3
      else baseMultiplier
  }

  /**
   * The opponent multiplier is 1 without opponents and for opponents within
   * (-50, 50] of the team, whatever the placement; otherwise it is the step
   * multiplier, reduced by 30% for a top-three finish against much weaker
   * opponents and raised by 30% for a placement of 15 or worse against much
   * stronger ones, so it always lies in [0.14, 2.86].
   */
  lemma OpponentStrengthMultiplierShape(teamAvgRating: real, opponentAvgRatings: seq<real>, placement: int)
    ensures |opponentAvgRatings| == 0 ==> OpponentStrengthMultiplier(teamAvgRating, opponentAvgRatings, placement) == 1.0
    ensures |opponentAvgRatings| > 0 ==>
      var d := StrengthDiff(teamAvgRating, opponentAvgRatings);
      var m := OpponentStrengthMultiplier(teamAvgRating, opponentAvgRatings, placement);
      (-50.0 < d <= 50.0 ==> m == 1.0) &&
      (placement <= 3 && d < -200.0 ==> m == StrengthStep(d) * 0.7) &&
      (placement >= 15 && d > 200.0 ==> m == StrengthStep(d) * 1.3) &&
      ((placement > 3 || d >= -200.0) && (placement < 15 || d <= 200.0) ==> m == StrengthStep(d))
    ensures 0.14 <= OpponentStrengthMultiplier(teamAvgRating, opponentAvgRatings, placement) <= 2.86
  {
  }

  /** `calculate_individual_adjustment`. */
  function IndividualAdjustment(playerRating: real, teamAvgRating: real): real {
    var individualDiff := playerRating - teamAvgRating;
    if individualDiff > 200.0 then 0.8
    else if individualDiff > 100.0 then 0.9
    else if individualDiff > -100.0 then 1.0
    else if individualDiff > -200.0 then 1.1
    else 1.2
  }

  /** The adjustment takes one of five values, is 1 within (-100, 100] of the team and never grows as the player pulls ahead. */
  lemma IndividualAdjustmentShape(p1: real, p2: real, teamAvgRating: real)
    requires p1 <= p2
    ensures IndividualAdjustment(p1, teamAvgRating) in {0.8, 0.9, 1.0, 1.1, 1.2}
    ensures -100.0 < p1 - teamAvgRating <= 100.0 ==> IndividualAdjustment(p1, teamAvgRating) == 1.0
    ensures IndividualAdjustment(p1, teamAvgRating) >= IndividualAdjustment(p2, teamAvgRating)
  {
  }

  /** `calculate_rating_curve_multiplier`: slower climbs and faster drops for highly rated players. */
  function RatingCurveMultiplier(currentRating: real, ratingChange: real): real {
    if ratingChange > 0.0 then
      if currentRating >= 2000.0 then 0.3
      else if currentRating >= 1800.0 then 0.5
      else if currentRating >= 1600.0 then 0.7
      else if currentRating >= 1400.0 then 0.85
      else 1.0
    else
      if currentRating >= 2000.0 then 1.5
      else if currentRating >= 1800.0 then 1.3
      else if currentRating >= 1600.0 then 1.1
      else 1.0
  }

  /** Gains are damped (at most 1, less as the rating grows) and losses amplified (at least 1, more as the rating grows); zero takes the losing branch. */
  lemma RatingCurveShape(r1: real, r2: real, change: real)
    requires r1 <= r2
    ensures change > 0.0 ==>
      RatingCurveMultiplier(r2, change) <= RatingCurveMultiplier(r1, change) <= 1.0
    ensures change <= 0.0 ==>
      1.0 <= RatingCurveMultiplier(r1, change) <= RatingCurveMultiplier(r2, change)
    ensures RatingCurveMultiplier(r1, change) > 0.0
  {
  }

  /** `RatingChangeBreakdown`. */
  datatype Breakdown = Breakdown(
    baseScore: real,
    opponentMultiplier: real,
    individualAdjustment: real,
    curveMultiplier: real,
    preliminaryChange: real,
    finalChange: real,
    maxChangeLimit: real)

  function MinReal(a: real, b: real): real {
    if a <= b then a else b
  }

  function MaxReal(a: real, b: real): real {
    if a >= b then a else b
  }

  /** `max(-limit, min(limit, x))`. */
  function Clamp(x: real, limit: real): real {
    MaxReal(-limit, MinReal(limit, x))
  }

  /** Steps 4 to 7 of `calculate_advanced_rating_change`: combine the factors, then curve and clamp the result. */
  function Combine(baseScore: real, opponentMultiplier: real, individualAdjustment: real, playerRating: real): Breakdown {
    CurveAndClamp(baseScore, opponentMultiplier, individualAdjustment,
      baseScore * opponentMultiplier * individualAdjustment, playerRating)
  }

  /** Steps 5 to 7: the rating curve, the limit `min(150, 0.15 * rating)` and the clamp. */
  function CurveAndClamp(baseScore: real, opponentMultiplier: real, individualAdjustment: real,
    preliminaryChange: real, playerRating: real): Breakdown
  {
    var curveMultiplier := RatingCurveMultiplier(playerRating, preliminaryChange);
    var maxChange := MinReal(150.0, playerRating * 0.15);
    var finalChange := Clamp(preliminaryChange * curveMultiplier, maxChange);
    Breakdown(baseScore, opponentMultiplier, individualAdjustment, curveMultiplier,
      preliminaryChange, finalChange, maxChange)
  }

  /** `calculate_advanced_rating_change`. */
  function AdvancedRatingChange(playerRating: real, teamAvgRating: real, placement: int, opponentAvgRatings: seq<real>): Breakdown {
    Combine(
      BasePlacementScore(placement),
      OpponentStrengthMultiplier(teamAvgRating, opponentAvgRatings, placement),
      IndividualAdjustment(playerRating, teamAvgRating),
      playerRating)
  }

  /** A non-negative limit bounds the clamp, which leaves values inside the limit alone. */
  lemma ClampWithin(x: real, limit: real)
    requires limit >= 0.0
    ensures -limit <= Clamp(x, limit) <= limit
    ensures -limit <= x <= limit ==> Clamp(x, limit) == x
  {
  }

  lemma CombineClamp(baseScore: real, opponentMultiplier: real, individualAdjustment: real, playerRating: real)
    requires playerRating >= 0.0
    ensures Combine(baseScore, opponentMultiplier, individualAdjustment, playerRating).maxChangeLimit ==
      MinReal(150.0, 0.15 * playerRating)
    ensures ClampedFully(Combine(baseScore, opponentMultiplier, individualAdjustment, playerRating))
  {
    CurveAndClampWithin(baseScore, opponentMultiplier, individualAdjustment,
      baseScore * opponentMultiplier * individualAdjustment, playerRating);
  }

  lemma CurveAndClampWithin(baseScore: real, opponentMultiplier: real, individualAdjustment: real,
    preliminaryChange: real, playerRating: real)
    requires playerRating >= 0.0
    ensures CurveAndClamp(baseScore, opponentMultiplier, individualAdjustment, preliminaryChange, playerRating).maxChangeLimit ==
      MinReal(150.0, 0.15 * playerRating)
    ensures ClampedFully(CurveAndClamp(baseScore, opponentMultiplier, individualAdjustment, preliminaryChange, playerRating))
  {
    var b := CurveAndClamp(baseScore, opponentMultiplier, individualAdjustment, preliminaryChange, playerRating);
    ClampWithin(b.preliminaryChange * b.curveMultiplier, b.maxChangeLimit);
  }

  /** The final change is within the limit, and equals the curved change when that already is. */
  predicate ClampedFully(b: Breakdown) {
    var curved := b.preliminaryChange * b.curveMultiplier;
    -b.maxChangeLimit <= b.finalChange <= b.maxChangeLimit &&
    (-b.maxChangeLimit <= curved <= b.maxChangeLimit ==> b.finalChange == curved)
  }

  /**
   * For a non-negative rating the final change never exceeds
   * `min(150, 0.15 * rating)` in size, and it is the curved preliminary
   * change itself whenever that is within the limit.
   */
  lemma ClampBounds(playerRating: real, teamAvgRating: real, placement: int, opponentAvgRatings: seq<real>)
    requires playerRating >= 0.0
    ensures AdvancedRatingChange(playerRating, teamAvgRating, placement, opponentAvgRatings).maxChangeLimit ==
      MinReal(150.0, 0.15 * playerRating)
    ensures ClampedFully(AdvancedRatingChange(playerRating, teamAvgRating, placement, opponentAvgRatings))
  {
    CombineClamp(BasePlacementScore(placement), OpponentStrengthMultiplier(teamAvgRating, opponentAvgRatings, placement),
      IndividualAdjustment(playerRating, teamAvgRating), playerRating);
  }

  /** With positive factors and a positive rating, the combined change has the sign of the base score. */
  lemma CombineSign(baseScore: real, opponentMultiplier: real, individualAdjustment: real, playerRating: real)
    requires opponentMultiplier > 0.0 && individualAdjustment > 0.0 && playerRating > 0.0
    ensures var f := Combine(baseScore, opponentMultiplier, individualAdjustment, playerRating).finalChange;
      (f > 0.0 <==> baseScore > 0.0) && (f == 0.0 <==> baseScore == 0.0) && (f < 0.0 <==> baseScore < 0.0)
  {
    var b := Combine(baseScore, opponentMultiplier, individualAdjustment, playerRating);
    var scale := opponentMultiplier * individualAdjustment;
    PositiveProduct(opponentMultiplier, individualAdjustment);
    SignOfProduct(baseScore, scale);
    assert b.preliminaryChange == baseScore * scale;
    RatingCurveShape(playerRating, playerRating, b.preliminaryChange);
    SignOfProduct(b.preliminaryChange, b.curveMultiplier);
    assert b.maxChangeLimit > 0.0;
  }

  /** For a positive rating the final change has the sign of the base score: gains for 1..7, nothing at 8, losses from 9 on. */
  lemma FinalChangeSign(playerRating: real, teamAvgRating: real, placement: int, opponentAvgRatings: seq<real>)
    requires playerRating > 0.0
    ensures var f := AdvancedRatingChange(playerRating, teamAvgRating, placement, opponentAvgRatings).finalChange;
      (f > 0.0 <==> placement <= 7) && (f == 0.0 <==> placement == 8) && (f < 0.0 <==> placement >= 9)
  {
    BasePlacementScoreShape(placement);
    OpponentStrengthMultiplierShape(teamAvgRating, opponentAvgRatings, placement);
    IndividualAdjustmentShape(playerRating, playerRating, teamAvgRating);
    CombineSign(BasePlacementScore(placement), OpponentStrengthMultiplier(teamAvgRating, opponentAvgRatings, placement),
      IndividualAdjustment(playerRating, teamAvgRating), playerRating);
  }

  lemma PositiveProduct(a: real, b: real)
    requires a > 0.0 && b > 0.0
    ensures a * b > 0.0
  {
  }

  /** Scaling by a positive factor keeps the sign. */
  lemma SignOfProduct(x: real, c: real)
    requires c > 0.0
    ensures (x * c > 0.0 <==> x > 0.0) && (x * c == 0.0 <==> x == 0.0) && (x * c < 0.0 <==> x < 0.0)
  {
    if x > 0.0 {
      PositiveProduct(x, c);
    } else if x < 0.0 {
      PositiveProduct(-x, c);
      assert x * c == -((-x) * c);
    }
  }

  /**
   * A 1600-rated player on a 1500 team finishing first against a single
   * 1350 team: base 50, opponent multiplier 0.6 (the difference -150 is not
   * above -150), individual adjustment 1.0 (the difference 100 is not above
   * 100), curve 0.7, so the change is 21 points.
   */
  lemma WorkedExample()
    ensures AdvancedRatingChange(1600.0, 1500.0, 1, [1350.0]) ==
      Breakdown(50.0, 0.6, 1.0, 0.7, 30.0, 21.0, 150.0)
  {
    assert Common.SumReal([1350.0]) == 1350.0 by {
      assert [1350.0][..0] == [];
    }
  }

  /**
   * The opponent adjustment can reverse the order of neighbouring
   * placements: a 1500 player on a 1500 team facing a 1200 team gains less
   * for third place (25 * 0.4 * 0.7 * 0.85 = 5.95) than for fourth
   * (18 * 0.4 * 0.85 = 6.12).
   */
  lemma ThirdCanGainLessThanFourth()
    ensures AdvancedRatingChange(1500.0, 1500.0, 3, [1200.0]).finalChange == 5.95
    ensures AdvancedRatingChange(1500.0, 1500.0, 4, [1200.0]).finalChange == 6.12
  {
    assert Common.SumReal([1200.0]) == 1200.0 by {
      assert [1200.0][..0] == [];
    }
  }

  /** `get_rating_tier_name`. */
  function RatingTierName(rating: real): string {
    if rating >= 2200.0 then "Legendary"
    else if rating >= 2000.0 then "Elite"
    else if rating >= 1800.0 then "Expert"
    else if rating >= 1600.0 then "Advanced"
    else if rating >= 1400.0 then "Intermediate"
    else if rating >= 1200.0 then "Beginner"
    else if rating >= 1000.0 then "Novice"
    else "Learning"
  }

  /** `get_expected_team_rating_for_rank`: 2200 down to 1500 by rank 5, 1000 by rank 15, 800 by rank 30. */
  function ExpectedTeamRatingForRank(rank: int): real {
    if rank <= 1 then 2200.0
    else if rank <= 5 then 2200.0 - (rank - 1) as real * (700.0 / 4.0)
    else if rank <= 15 then 1500.0 - (rank - 5) as real * (500.0 / 10.0)
    else if rank <= 30 then 1000.0 - (rank - 15) as real * (200.0 / 15.0)
    else 800.0
  }

  /** The expected rating never rises with the rank, and its pieces meet at ranks 1, 5, 15 and 30. */
  lemma ExpectedTeamRatingShape(r1: int, r2: int)
    requires r1 <= r2
    ensures ExpectedTeamRatingForRank(r1) >= ExpectedTeamRatingForRank(r2)
    ensures ExpectedTeamRatingForRank(1) == 2200.0 && ExpectedTeamRatingForRank(5) == 1500.0
    ensures ExpectedTeamRatingForRank(15) == 1000.0 && ExpectedTeamRatingForRank(30) == 800.0
    ensures 800.0 <= ExpectedTeamRatingForRank(r1) <= 2200.0
  {
  }

  /** The placements `preview_rating_changes` evaluates. */
  const PreviewPlacements: seq<int> := [1, 3, 5, 10, 15, 20, 25, 30]

  function FinalChange(playerRating: real, teamAvgRating: real, placement: int, opponentAvgRatings: seq<real>): real {
    AdvancedRatingChange(playerRating, teamAvgRating, placement, opponentAvgRatings).finalChange
  }

  /** `preview_rating_changes`: the final change for each preview placement, as `placement -> change` items. */
  method PreviewRatingChanges(playerRating: real, teamAvgRating: real, opponentAvgRatings: seq<real>)
    returns (previews: seq<(int, real)>)
    ensures |previews| == |PreviewPlacements|
    ensures forall i :: 0 <= i < |previews| ==>
      previews[i] == (PreviewPlacements[i], FinalChange(playerRating, teamAvgRating, PreviewPlacements[i], opponentAvgRatings))
    ensures forall i :: 0 <= i < |previews| - 1 ==> previews[i].1 >= previews[i + 1].1
  {
    previews := [];
    for i := 0 to |PreviewPlacements|
      invariant |previews| == i
      invariant forall j :: 0 <= j < i ==>
        previews[j] == (PreviewPlacements[j], FinalChange(playerRating, teamAvgRating, PreviewPlacements[j], opponentAvgRatings))
    {
      var placement := PreviewPlacements[i];
      var breakdown := AdvancedRatingChange(playerRating, teamAvgRating, placement, opponentAvgRatings);
      previews := previews + [(placement, breakdown.finalChange)];
    }
    forall i | 0 <= i < |previews| - 1 ensures previews[i].1 >= previews[i + 1].1 {
      PreviewMonotone(playerRating, teamAvgRating, opponentAvgRatings, i);
    }
  }

  /** The clamp never reverses an order. */
  lemma ClampMonotone(x: real, y: real, limit: real)
    requires x <= y
    ensures Clamp(x, limit) <= Clamp(y, limit)
  {
  }

  lemma ScaleMonotone(x: real, y: real, c: real)
    requires x <= y && c > 0.0
    ensures x * c <= y * c
  {
    if x < y {
      PositiveProduct(y - x, c);
      assert y * c - x * c == (y - x) * c;
    }
  }

  /** Curving never reverses an order: gains stay gains, losses stay losses, and each side is scaled by one factor. */
  lemma CurvedMonotone(x: real, y: real, playerRating: real)
    requires x <= y
    ensures x * RatingCurveMultiplier(playerRating, x) <= y * RatingCurveMultiplier(playerRating, y)
  {
    var cx, cy := RatingCurveMultiplier(playerRating, x), RatingCurveMultiplier(playerRating, y);
    RatingCurveShape(playerRating, playerRating, x);
    RatingCurveShape(playerRating, playerRating, y);
    if x > 0.0 || y <= 0.0 {
      assert cx == cy;
      ScaleMonotone(x, y, cx);
    } else {
      SignOfProduct(x, cx);
      SignOfProduct(y, cy);
    }
  }

  /** A larger preliminary change never ends in a smaller final change. */
  lemma CurveAndClampMonotone(b1: real, o1: real, i1: real, x: real, b2: real, o2: real, i2: real, y: real, playerRating: real)
    requires x <= y
    ensures CurveAndClamp(b1, o1, i1, x, playerRating).finalChange <= CurveAndClamp(b2, o2, i2, y, playerRating).finalChange
  {
    CurvedMonotone(x, y, playerRating);
    ClampMonotone(x * RatingCurveMultiplier(playerRating, x), y * RatingCurveMultiplier(playerRating, y),
      MinReal(150.0, playerRating * 0.15));
  }

  /**
   * Along the preview placements the change never increases: a better
   * placement in the preview is never worth less than the next one.
   */
  lemma PreviewMonotone(playerRating: real, teamAvgRating: real, opponentAvgRatings: seq<real>, i: nat)
    requires i + 1 < |PreviewPlacements|
    ensures FinalChange(playerRating, teamAvgRating, PreviewPlacements[i], opponentAvgRatings) >=
      FinalChange(playerRating, teamAvgRating, PreviewPlacements[i + 1], opponentAvgRatings)
  {
    var p, q := PreviewPlacements[i], PreviewPlacements[i + 1];
    IndividualAdjustmentShape(playerRating, playerRating, teamAvgRating);
    PreviewScaledOrder(teamAvgRating, opponentAvgRatings, i);
    CombineMonotone(BasePlacementScore(q), OpponentStrengthMultiplier(teamAvgRating, opponentAvgRatings, q),
      BasePlacementScore(p), OpponentStrengthMultiplier(teamAvgRating, opponentAvgRatings, p),
      IndividualAdjustment(playerRating, teamAvgRating), playerRating);
  }

  /** With one individual adjustment, a smaller scaled base score never ends in a larger final change. */
  lemma CombineMonotone(b1: real, o1: real, b2: real, o2: real, individualAdjustment: real, playerRating: real)
    requires b1 * o1 <= b2 * o2 && individualAdjustment > 0.0
    ensures Combine(b1, o1, individualAdjustment, playerRating).finalChange <=
      Combine(b2, o2, individualAdjustment, playerRating).finalChange
  {
    ScaleMonotone(b1 * o1, b2 * o2, individualAdjustment);
    CurveAndClampMonotone(b1, o1, individualAdjustment, b1 * o1 * individualAdjustment,
      b2, o2, individualAdjustment, b2 * o2 * individualAdjustment, playerRating);
  }

  /** Base score times opponent multiplier never increases along the preview placements. */
  lemma PreviewScaledOrder(teamAvgRating: real, opponentAvgRatings: seq<real>, i: nat)
    requires i + 1 < |PreviewPlacements|
    ensures
      var p, q := PreviewPlacements[i], PreviewPlacements[i + 1];
      BasePlacementScore(q) * OpponentStrengthMultiplier(teamAvgRating, opponentAvgRatings, q) <=
      BasePlacementScore(p) * OpponentStrengthMultiplier(teamAvgRating, opponentAvgRatings, p)
  {
    var p, q := PreviewPlacements[i], PreviewPlacements[i + 1];
    var mp := OpponentStrengthMultiplier(teamAvgRating, opponentAvgRatings, p);
    var mq := OpponentStrengthMultiplier(teamAvgRating, opponentAvgRatings, q);
    OpponentStrengthMultiplierShape(teamAvgRating, opponentAvgRatings, p);
    OpponentStrengthMultiplierShape(teamAvgRating, opponentAvgRatings, q);
    TableShape();
    if i == 0 {
      // Placements 1 and 3 get the same multiplier.
      ScaleMonotone(25.0, 50.0, mp);
    } else if i == 1 {
      // Third place may lose 30% of the multiplier fifth place gets: 25 * 0.7 still beats 12.
      assert 0.7 * mq <= mp;
      ScaleMonotone(0.7 * mq, mp, 25.0);
      ScaleMonotone(12.0, 17.5, mq);
    } else if i == 2 {
      PositiveProduct(12.0, mp);
      PositiveProduct(10.0, mq);
    } else if i == 3 {
      // Fifteenth place may get 30% more multiplier than tenth, and loses five times as much.
      assert mp <= mq;
      ScaleMonotone(mp, mq, 10.0);
      ScaleMonotone(10.0, 50.0, mq);
    } else {
      // From fifteenth place on the multiplier no longer depends on the placement.
      assert mp == mq;
      ScaleMonotone(BasePlacementScore(q), BasePlacementScore(p), mp);
    }
  }
}
