/**
 * The presentation rules of the advanced rating embeds
 * (`bot/utils/advanced_rating_ui.py`): tier colours, emoji and ranks, the
 * strength assessment of a rating preview, and the explanation lines of a
 * rating change breakdown.  Embed layout is left out.
 */
module RatingUi {

  import opened Common
  import opened Text
  import AdvancedRating

  // ---------------------------------------------------------------------------
  // Tiers

  /** The eight tier names, best first. */
  const TierNames: seq<string> :=
    ["Legendary", "Elite", "Expert", "Advanced", "Intermediate", "Beginner", "Novice", "Learning"]

  predicate KnownTier(tier: string) {
    tier in TierNames
  }

  /** `TIER_COLORS.get(tier, 0x2B5CE6)`. */
  function TierColor(tier: string): int {
    if tier == "Legendary" then 0xFFD700
    else if tier == "Elite" then 0xFF6B6B
    else if tier == "Expert" then 0x4ECDC4
    else if tier == "Advanced" then 0x45B7D1
    else if tier == "Intermediate" then 0x96CEB4
    else if tier == "Beginner" then 0xFECA57
    else if tier == "Novice" then 0xFD79A8
    else if tier == "Learning" then 0xA0A0A0
    else 0x2B5CE6
  }

  /** `get_tier_emoji`, with the star for any other name. */
  function TierEmoji(tier: string): string {
    if tier == "Legendary" then "🏆"
    else if tier == "Elite" then "💎"
    else if tier == "Expert" then "🥇"
    else if tier == "Advanced" then "🥈"
    else if tier == "Intermediate" then "🥉"
    else if tier == "Beginner" then "📊"
    else if tier == "Novice" then "📈"
    else if tier == "Learning" then "🌱"
    else "⭐"
  }

  /** `_get_tier_rank`: higher is better, 0 for a name that is not a tier. */
  function TierRank(tier: string): nat {
    if tier == "Legendary" then 8
    else if tier == "Elite" then 7
    else if tier == "Expert" then 6
    else if tier == "Advanced" then 5
    else if tier == "Intermediate" then 4
    else if tier == "Beginner" then 3
    else if tier == "Novice" then 2
    else if tier == "Learning" then 1
    else 0
  }

  /**
   * The tiers rank 8 down to 1 in the order listed, so each has its own
   * rank; any other name ranks 0 and gets the default colour and the star.
   */
  lemma TierTables(tier: string)
    ensures forall i :: 0 <= i < |TierNames| ==> TierRank(TierNames[i]) == 8 - i
    ensures KnownTier(tier) <==> 1 <= TierRank(tier) <= 8
    ensures KnownTier(tier) ==> tier == TierNames[8 - TierRank(tier)]
    ensures !KnownTier(tier) ==> TierColor(tier) == 0x2B5CE6 && TierEmoji(tier) == "⭐"
    ensures KnownTier(tier) ==> TierColor(tier) != 0x2B5CE6
  {
  }

  /** `_get_tier_name`. */
  function TierName(rating: real): string {
    if rating >= 2200.0 then "Legendary"
    else if rating >= 2000.0 then "Elite"
    else if rating >= 1800.0 then "Expert"
    else if rating >= 1600.0 then "Advanced"
    else if rating >= 1400.0 then "Intermediate"
    else if rating >= 1200.0 then "Beginner"
    else if rating >= 1000.0 then "Novice"
    else "Learning"
  }

  /** The embed's tier names are the rating service's for every rating, and always a known tier. */
  lemma TierNameAgrees(rating: real)
    ensures TierName(rating) == AdvancedRating.RatingTierName(rating)
    ensures KnownTier(TierName(rating))
  {
  }

  /** A higher rating never has a lower tier rank. */
  lemma TierRankMonotone(lower: real, higher: real)
    requires lower <= higher
    ensures TierRank(TierName(lower)) <= TierRank(TierName(higher))
  {
  }

  /**
   * `create_rating_change_breakdown_embed`'s tier line marker: none when the
   * tier is unchanged, a celebration when the new tier ranks higher, a
   * falling chart otherwise.
   */
  function TierChangeMark(tierBefore: string, tierAfter: string): Option<string> {
    if tierBefore == tierAfter then None
    else if TierRank(tierAfter) > TierRank(tierBefore) then Some("🎉")
    else Some("📉")
  }

  /** Between tiers derived from ratings, a tier change is celebrated exactly when the rating rose. */
  lemma TierChangeFollowsRating(before: real, after: real)
    requires TierName(before) != TierName(after)
    ensures TierChangeMark(TierName(before), TierName(after)) == Some(if after > before then "🎉" else "📉")
  {
    if after > before {
      TierRankMonotone(before, after);
    } else {
      TierRankMonotone(after, before);
    }
    TierTables(TierName(before));
    TierTables(TierName(after));
    TierNameAgrees(before);
    TierNameAgrees(after);
  }

  // ---------------------------------------------------------------------------
  // Opponent strength in a rating preview

  /** The assessment `create_rating_preview_embed` shows, from much stronger down to much weaker. */
  datatype Strength = MuchStronger | Stronger | Similar | Weaker | MuchWeaker

  /** Position from the top: 0 for much stronger, 4 for much weaker. */
  function StrengthOrder(s: Strength): nat {
    match s
    case MuchStronger => 0
    case Stronger => 1
    case Similar => 2
    case Weaker => 3
    case MuchWeaker => 4
  }

  /** Mean opponent team average less the player's team average; 0 without opponents. */
  function StrengthDifference(opponentAverages: seq<real>, teamAverage: real): real {
    if |opponentAverages| == 0 then 0.0
    else SumReal(opponentAverages) / |opponentAverages| as real - teamAverage
  }

  function StrengthOf(difference: real): Strength {
    if difference > 200.0 then MuchStronger
    else if difference > 50.0 then Stronger
    else if difference > -50.0 then Similar
    else if difference > -200.0 then Weaker
    else MuchWeaker
  }

  /** The embed colour of each assessment. */
  function StrengthColor(s: Strength): int {
    match s
    case MuchStronger => 0xFF6B6B
    case Stronger => 0xFECA57
    case Similar => 0x4ECDC4
    case Weaker => 0x96CEB4
    case MuchWeaker => 0xA0A0A0
  }

  /**
   * The buckets are the intervals (200, ∞), (50, 200], (-50, 50],
   * (-200, -50] and (-∞, -200]; a larger difference never rates the
   * opponents weaker; without opponents they count as similar.
   */
  lemma StrengthBuckets(difference: real, larger: real, teamAverage: real)
    requires difference <= larger
    ensures StrengthOrder(StrengthOf(larger)) <= StrengthOrder(StrengthOf(difference))
    ensures StrengthOf(difference) == MuchStronger <==> difference > 200.0
    ensures StrengthOf(difference) == Stronger <==> 50.0 < difference <= 200.0
    ensures StrengthOf(difference) == Similar <==> -50.0 < difference <= 50.0
    ensures StrengthOf(difference) == Weaker <==> -200.0 < difference <= -50.0
    ensures StrengthOf(difference) == MuchWeaker <==> difference <= -200.0
    ensures StrengthOf(StrengthDifference([], teamAverage)) == Similar
  {
  }

  /** The assessment tip under a preview. */
  datatype Tip = StrongerOpponents | WeakerOpponents | Balanced

  function TipFor(difference: real): Tip {
    if difference > 100.0 then StrongerOpponents
    else if difference < -100.0 then WeakerOpponents
    else Balanced
  }

  /** The tip never contradicts the assessment: stronger opponents come with a stronger rating, and so on. */
  lemma TipAgreesWithStrength(difference: real)
    ensures TipFor(difference) == StrongerOpponents ==> StrengthOrder(StrengthOf(difference)) <= 1
    ensures TipFor(difference) == WeakerOpponents ==> StrengthOrder(StrengthOf(difference)) >= 3
    ensures StrengthOf(difference) == Similar ==> TipFor(difference) == Balanced
  {
  }

  // ---------------------------------------------------------------------------
  // Breakdown explanation

  const HugeUnderdog: string := "💪 Huge underdog bonus"
  const Underdog: string := "💪 Underdog bonus"
  const HeavyFavorite: string := "📉 Heavy favorite penalty"
  const Favorite: string := "📉 Favorite penalty"
  const BeingCarried: string := "🎯 Being carried bonus"
  const CarryingTeam: string := "🎯 Carrying team penalty"
  const EliteClimbing: string := "📈 Elite climbing penalty"
  const EliteDropping: string := "📉 Elite dropping bonus"
  const StandardCalculation: string := "⚖️ Standard calculation"

  function OpponentLine(opponentMultiplier: real): seq<string> {
    if opponentMultiplier > 1.5 then [HugeUnderdog]
    else if opponentMultiplier > 1.1 then [Underdog]
    else if opponentMultiplier < 0.5 then [HeavyFavorite]
    else if opponentMultiplier < 0.9 then [Favorite]
    else []
  }

  function IndividualLine(individualAdjustment: real): seq<string> {
    if individualAdjustment > 1.05 then [BeingCarried]
    else if individualAdjustment < 0.95 then [CarryingTeam]
    else []
  }

  function CurveLine(curveMultiplier: real): seq<string> {
    if curveMultiplier < 0.8 then [EliteClimbing]
    else if curveMultiplier > 1.2 then [EliteDropping]
    else []
  }

  /** The lines `_get_breakdown_explanation` collects, in order. */
  function ExplanationLines(opponentMultiplier: real, individualAdjustment: real, curveMultiplier: real): seq<string> {
    OpponentLine(opponentMultiplier) + IndividualLine(individualAdjustment) + CurveLine(curveMultiplier)
  }

  /** `_get_breakdown_explanation`: the lines joined by newlines, or the standard text when there are none. */
  function BreakdownExplanation(opponentMultiplier: real, individualAdjustment: real, curveMultiplier: real): string {
    var lines := ExplanationLines(opponentMultiplier, individualAdjustment, curveMultiplier);
    if |lines| == 0 then StandardCalculation else Join(lines, '\n')
  }

  /**
   * At most one line for each factor, so at most three; no line at all
   * exactly when every factor lies in its neutral band, and then the
   * standard text.  Otherwise the explanation splits back into its lines.
   */
  lemma ExplanationShape(opponentMultiplier: real, individualAdjustment: real, curveMultiplier: real)
    ensures var lines := ExplanationLines(opponentMultiplier, individualAdjustment, curveMultiplier);
      |lines| <= 3 &&
      (|lines| == 0 <==>
        0.9 <= opponentMultiplier <= 1.1 && 0.95 <= individualAdjustment <= 1.05 && 0.8 <= curveMultiplier <= 1.2) &&
      (|lines| == 0 ==> BreakdownExplanation(opponentMultiplier, individualAdjustment, curveMultiplier) == StandardCalculation) &&
      (|lines| > 0 ==> Split(BreakdownExplanation(opponentMultiplier, individualAdjustment, curveMultiplier), '\n') == lines)
  {
    var lines := ExplanationLines(opponentMultiplier, individualAdjustment, curveMultiplier);
    if |lines| > 0 {
      LinesHaveNoNewline(opponentMultiplier, individualAdjustment, curveMultiplier);
      SplitJoin(lines, '\n');
    }
  }

  predicate NoNewline(line: string) {
    '\n' !in line
  }

  /** Every line of a list is free of newlines. */
  predicate NoNewlines(lines: seq<string>) {
    forall i :: 0 <= i < |lines| ==> NoNewline(lines[i])
  }

  lemma OpponentLineHasNoNewline(opponentMultiplier: real)
    ensures NoNewlines(OpponentLine(opponentMultiplier))
  {
    if opponentMultiplier > 1.5 {
      assert NoNewline(HugeUnderdog);
    } else if opponentMultiplier > 1.1 {
      assert NoNewline(Underdog);
    } else if opponentMultiplier < 0.5 {
      assert NoNewline(HeavyFavorite);
    } else if opponentMultiplier < 0.9 {
      assert NoNewline(Favorite);
    }
  }

  lemma IndividualLineHasNoNewline(individualAdjustment: real)
    ensures NoNewlines(IndividualLine(individualAdjustment))
  {
    if individualAdjustment > 1.05 {
      assert NoNewline(BeingCarried);
    } else if individualAdjustment < 0.95 {
      assert NoNewline(CarryingTeam);
    }
  }

  lemma CurveLineHasNoNewline(curveMultiplier: real)
    ensures NoNewlines(CurveLine(curveMultiplier))
  {
    if curveMultiplier < 0.8 {
      assert NoNewline(EliteClimbing);
    } else if curveMultiplier > 1.2 {
      assert NoNewline(EliteDropping);
    }
  }

  /** No explanation line contains a newline, so joining them with newlines can be undone. */
  lemma LinesHaveNoNewline(opponentMultiplier: real, individualAdjustment: real, curveMultiplier: real)
    ensures var lines := ExplanationLines(opponentMultiplier, individualAdjustment, curveMultiplier);
      forall i :: 0 <= i < |lines| ==> '\n' !in lines[i]
  {
    var a, b, c := OpponentLine(opponentMultiplier), IndividualLine(individualAdjustment), CurveLine(curveMultiplier);
    OpponentLineHasNoNewline(opponentMultiplier);
    IndividualLineHasNoNewline(individualAdjustment);
    CurveLineHasNoNewline(curveMultiplier);
    var lines := ExplanationLines(opponentMultiplier, individualAdjustment, curveMultiplier);
    assert lines == a + b + c;
    forall i | 0 <= i < |lines|
      ensures NoNewline(lines[i])
    {
      if i < |a| {
        assert lines[i] == a[i];
      } else if i < |a| + |b| {
        assert lines[i] == b[i - |a|];
      } else {
        assert lines[i] == c[i - |a| - |b|];
      }
    }
  }
}
