/**
 * The simplified Glicko-style updates of `GlickoRatingService`: one score
 * per player, a two-team expected-score update and a multi-team update by
 * finishing position. Every update shrinks the uncertainty by 1% down to a
 * floor of 50. The square root and `10 ** x` are parameters.
 */
module Glicko {

  import opened Common

  /** `Rating(mu, sigma)`. */
  datatype Rating = Rating(mu: real, sigma: real)

  function Max(a: real, b: real): real {
    if a >= b then a else b
  }

  /** The new uncertainty after any update: `max(sigma * 0.99, 50.0)`. */
  function SigmaAfter(sigma: real): real {
    Max(sigma * 0.99, 50.0)
  }

  /**
   * The uncertainty never drops below 50 and never grows once it is at least
   * 50; above 50 / 0.99 it shrinks by exactly 1%, at or below it lands on 50.
   */
  lemma SigmaAfterShape(sigma: real)
    ensures SigmaAfter(sigma) >= 50.0
    ensures sigma >= 50.0 ==> SigmaAfter(sigma) <= sigma
    ensures sigma * 0.99 >= 50.0 ==> SigmaAfter(sigma) == sigma * 0.99
    ensures sigma * 0.99 < 50.0 ==> SigmaAfter(sigma) == 50.0
  {
  }

  function Mus(players: seq<Rating>): (mus: seq<real>)
    ensures |mus| == |players|
    ensures forall i :: 0 <= i < |players| ==> mus[i] == players[i].mu
  {
    if |players| == 0 then [] else Mus(players[..|players| - 1]) + [players[|players| - 1].mu]
  }

  function SigmaSquares(players: seq<Rating>): (squares: seq<real>)
    ensures |squares| == |players|
    ensures forall i :: 0 <= i < |players| ==> squares[i] == players[i].sigma * players[i].sigma
  {
    if |players| == 0 then []
    else
      var last := players[|players| - 1];
      SigmaSquares(players[..|players| - 1]) + [last.sigma * last.sigma]
  }

  /**
   * `calculate_team_rating`: (1500, 350) for no players, else the mean mu
   * and `sqrt(sum of sigma squared) / n`, with `sqrt` supplied.
   */
  function TeamRating(players: seq<Rating>, sqrt: real -> real): Rating {
    if |players| == 0 then Rating(1500.0, 350.0)
    else
      var n := |players| as real;
      Rating(SumReal(Mus(players)) / n, sqrt(SumReal(SigmaSquares(players))) / n)
  }

  /** The team mu lies between the lowest and the highest player mu, and equals it when all agree. */
  lemma TeamRatingMean(players: seq<Rating>, sqrt: real -> real, lo: real, hi: real)
    requires |players| > 0
    requires forall i :: 0 <= i < |players| ==> lo <= players[i].mu <= hi
    ensures lo <= TeamRating(players, sqrt).mu <= hi
  {
    var mus := Mus(players);
    var n := |players| as real;
    SumRealBounds(mus, lo, hi);
    DivBounds(SumReal(mus), n, lo, hi);
  }

  lemma TeamRatingEmpty(sqrt: real -> real)
    ensures TeamRating([], sqrt) == Rating(1500.0, 350.0)
  {
  }

  /** One player's update in `update_ratings`: `32 * (result - 0.5) * (sigma / 350)` added to mu. */
  function Adjusted(rating: Rating, result: real): Rating {
    Rating(rating.mu + 32.0 * (result - 0.5) * (rating.sigma / 350.0), SigmaAfter(rating.sigma))
  }

  /** `update_ratings`: zips ratings with results, so it stops at the shorter list. */
  function UpdateRatings(ratings: seq<Rating>, results: seq<real>): (updated: seq<Rating>)
    ensures |updated| == if |ratings| <= |results| then |ratings| else |results|
    ensures forall i :: 0 <= i < |updated| ==> updated[i] == Adjusted(ratings[i], results[i])
  {
    if |ratings| == 0 || |results| == 0 then []
    else [Adjusted(ratings[0], results[0])] + UpdateRatings(ratings[1..], results[1..])
  }

  /**
   * With positive uncertainty a result above 0.5 raises mu, one below lowers
   * it and exactly 0.5 leaves it alone; the change is at most 16 * sigma / 350.
   */
  lemma AdjustedDirection(rating: Rating, result: real)
    requires rating.sigma > 0.0
    ensures result > 0.5 <==> Adjusted(rating, result).mu > rating.mu
    ensures result == 0.5 <==> Adjusted(rating, result).mu == rating.mu
    ensures result < 0.5 <==> Adjusted(rating, result).mu < rating.mu
    ensures 0.0 <= result <= 1.0 ==>
      -16.0 * (rating.sigma / 350.0) <= Adjusted(rating, result).mu - rating.mu <= 16.0 * (rating.sigma / 350.0)
  {
    var s := rating.sigma / 350.0;
    var c := 32.0 * (result - 0.5);
    assert Adjusted(rating, result).mu - rating.mu == c * s;
    SignOfProduct(c, s);
    if 0.0 <= result <= 1.0 {
      assert -16.0 <= c <= 16.0;
      BoundedProduct(c, s, 16.0);
      assert -16.0 * s <= c * s <= 16.0 * s;
    }
  }

  /** Scaling by a positive factor keeps the sign. */
  lemma SignOfProduct(x: real, c: real)
    requires c > 0.0
    ensures (x * c > 0.0 <==> x > 0.0) && (x * c == 0.0 <==> x == 0.0) && (x * c < 0.0 <==> x < 0.0)
  {
    if x > 0.0 {
      PositiveProduct(x, c);
    } else if x < 0.0 {
      PositiveProduct(-x, c);
      assert x * c == -((-x) * c);
    }
  }

  lemma PositiveProduct(a: real, b: real)
    requires a > 0.0 && b > 0.0
    ensures a * b > 0.0
  {
  }

  lemma BoundedProduct(x: real, c: real, bound: real)
    requires c > 0.0 && -bound <= x <= bound
    ensures -bound * c <= x * c <= bound * c
  {
    if x < bound {
      PositiveProduct(bound - x, c);
      assert bound * c - x * c == (bound - x) * c;
    }
    if -bound < x {
      PositiveProduct(x + bound, c);
      assert x * c - (-bound * c) == (x + bound) * c;
    }
  }

  /** `[score] * n`. */
  function Repeat(score: real, n: nat): (scores: seq<real>)
    ensures |scores| == n && forall i :: 0 <= i < n ==> scores[i] == score
  {
    seq(n, _ => score)
  }

  /** A team updated with one score per member: every member gets that score's adjustment. */
  lemma UpdateTeamWithScore(team: seq<Rating>, score: real)
    ensures |UpdateRatings(team, Repeat(score, |team|))| == |team|
    ensures forall i :: 0 <= i < |team| ==>
      UpdateRatings(team, Repeat(score, |team|))[i] == Adjusted(team[i], score)
  {
  }

  /**
   * The change `update_team_ratings` applies: team 1's expected score is
   * `1 / (1 + 10 ** (-(mu1 - mu2) / 400))` over the team ratings, the K-factor
   * is `32 * sigma1 / 350`, and the change is `k * (score - expected)`.
   */
  function RatingChange(team1: seq<Rating>, team2: seq<Rating>, team1Score: real,
    sqrt: real -> real, pow10: real -> real): real
    requires forall x :: pow10(x) > 0.0
  {
    var r1 := TeamRating(team1, sqrt);
    var r2 := TeamRating(team2, sqrt);
    var expected := ExpectedScore(r1.mu - r2.mu, pow10);
    32.0 * (r1.sigma / 350.0) * (team1Score - expected)
  }

  function ExpectedScore(ratingDiff: real, pow10: real -> real): (e: real)
    requires forall x :: pow10(x) > 0.0
    ensures 0.0 < e < 1.0
  {
    var p := pow10(-ratingDiff / 400.0);
    assert 1.0 + p > 1.0;
    1.0 / (1.0 + p)
  }

  function Shifted(rating: Rating, delta: real): Rating {
    Rating(rating.mu + delta, SigmaAfter(rating.sigma))
  }

  function ShiftAll(ratings: seq<Rating>, delta: real): (shifted: seq<Rating>)
    ensures |shifted| == |ratings|
    ensures forall i :: 0 <= i < |ratings| ==> shifted[i] == Shifted(ratings[i], delta)
  {
    seq(|ratings|, i requires 0 <= i < |ratings| => Shifted(ratings[i], delta))
  }

  /** `update_team_ratings`: the same change added to every team-1 player and taken from every team-2 player. */
  function UpdateTeamRatings(team1: seq<Rating>, team2: seq<Rating>, team1Score: real,
    sqrt: real -> real, pow10: real -> real): (r: (seq<Rating>, seq<Rating>))
    requires forall x :: pow10(x) > 0.0
    ensures |r.0| == |team1| && |r.1| == |team2|
    ensures var d := RatingChange(team1, team2, team1Score, sqrt, pow10);
      (forall i :: 0 <= i < |team1| ==> r.0[i].mu == team1[i].mu + d && r.0[i].sigma == SigmaAfter(team1[i].sigma)) &&
      (forall j :: 0 <= j < |team2| ==> r.1[j].mu == team2[j].mu - d && r.1[j].sigma == SigmaAfter(team2[j].sigma))
  {
    var delta := RatingChange(team1, team2, team1Score, sqrt, pow10);
    (ShiftAll(team1, delta), ShiftAll(team2, -delta))
  }

  /**
   * A win for team 1 against any opponents raises every team-1 player and
   * lowers every team-2 player, provided team 1's combined uncertainty is
   * positive; a loss does the opposite.
   */
  lemma UpdateTeamRatingsWinner(team1: seq<Rating>, team2: seq<Rating>, team1Score: real,
    sqrt: real -> real, pow10: real -> real)
    requires forall x :: pow10(x) > 0.0
    requires TeamRating(team1, sqrt).sigma > 0.0
    requires team1Score == 1.0 || team1Score == 0.0
    ensures team1Score == 1.0 ==> RatingChange(team1, team2, team1Score, sqrt, pow10) > 0.0
    ensures team1Score == 0.0 ==> RatingChange(team1, team2, team1Score, sqrt, pow10) < 0.0
  {
    var r1 := TeamRating(team1, sqrt);
    var r2 := TeamRating(team2, sqrt);
    var e := ExpectedScore(r1.mu - r2.mu, pow10);
    var k := 32.0 * (r1.sigma / 350.0);
    assert k > 0.0;
    assert RatingChange(team1, team2, team1Score, sqrt, pow10) == k * (team1Score - e);
    SignOfProduct(team1Score - e, k);
    assert k * (team1Score - e) == (team1Score - e) * k;
  }

  /** The multi-team score: `(n - position) / (n - 1)`, or 0.5 for a single team. */
  function PositionScore(numTeams: int, position: int): real {
    if numTeams > 1 then (numTeams - position) as real / (numTeams - 1) as real else 0.5
  }

  /** First place scores 1, last place 0, a lone team 0.5, and a better position never scores less. */
  lemma PositionScoreShape(numTeams: int, p1: int, p2: int)
    requires p1 <= p2
    ensures numTeams > 1 ==> PositionScore(numTeams, 1) == 1.0 && PositionScore(numTeams, numTeams) == 0.0
    ensures numTeams <= 1 ==> PositionScore(numTeams, p1) == 0.5
    ensures PositionScore(numTeams, p1) >= PositionScore(numTeams, p2)
    ensures numTeams > 1 && 1 <= p1 <= numTeams ==> 0.0 <= PositionScore(numTeams, p1) <= 1.0
  {
    if numTeams > 1 {
      var d := (numTeams - 1) as real;
      assert (numTeams - p1) as real / d - (numTeams - p2) as real / d == (p2 - p1) as real / d;
    }
  }

  /** One player's multi-team update: `20 * (score - 0.5) * (sigma / 350)`. */
  function MultiAdjusted(rating: Rating, score: real): Rating {
    Rating(rating.mu + 20.0 * (score - 0.5) * (rating.sigma / 350.0), SigmaAfter(rating.sigma))
  }

  function MultiAdjustAll(team: seq<Rating>, score: real): (updated: seq<Rating>)
    ensures |updated| == |team|
    ensures forall j :: 0 <= j < |team| ==> updated[j] == MultiAdjusted(team[j], score)
  {
    seq(|team|, j requires 0 <= j < |team| => MultiAdjusted(team[j], score))
  }

  /**
   * `update_multi_team_ratings`: every team is scored by its position and each
   * of its players adjusted by that score. A positions list shorter than the
   * team list raises `IndexError` at the first team without a position.
   */
  function UpdateMultiTeamRatings(teams: seq<seq<Rating>>, positions: seq<int>): (r: Result<seq<seq<Rating>>>)
    ensures r.Err? <==> |positions| < |teams|
    ensures r.Err? ==> r.message == "list index out of range"
    ensures r.Ok? ==> |r.value| == |teams| && forall i :: 0 <= i < |teams| ==> |r.value[i]| == |teams[i]|
  {
    if |positions| < |teams| then Err("list index out of range")
    else Ok(seq(|teams|, i requires 0 <= i < |teams| => MultiAdjustAll(teams[i], PositionScore(|teams|, positions[i]))))
  }

  /**
   * With several teams the winner's players gain by `10 * sigma / 350` and the
   * last team's lose as much; a team alone is unchanged in mu. Every sigma
   * follows `SigmaAfter`.
   */
  lemma MultiTeamEnds(teams: seq<seq<Rating>>, positions: seq<int>, i: nat, j: nat)
    requires |positions| >= |teams| && i < |teams| && j < |teams[i]|
    ensures var u := UpdateMultiTeamRatings(teams, positions).value[i][j];
      var r := teams[i][j];
      u.sigma == SigmaAfter(r.sigma) &&
      (|teams| > 1 && positions[i] == 1 ==> u.mu == r.mu + 10.0 * (r.sigma / 350.0)) &&
      (|teams| > 1 && positions[i] == |teams| ==> u.mu == r.mu - 10.0 * (r.sigma / 350.0)) &&
      (|teams| == 1 ==> u.mu == r.mu)
  {
    PositionScoreShape(|teams|, positions[i], positions[i]);
  }

  /**
   * The multi-team update follows the finishing order: of two players with the
   * same rating, the one whose team finished no worse never ends with a lower
   * mu, and with several teams, a positive sigma and a strictly better
   * position ends strictly higher. Both sigmas are reduced alike.
   */
  lemma MultiTeamOrder(teams: seq<seq<Rating>>, positions: seq<int>, i1: nat, j1: nat, i2: nat, j2: nat)
    requires |positions| >= |teams| && i1 < |teams| && j1 < |teams[i1]| && i2 < |teams| && j2 < |teams[i2]|
    requires teams[i1][j1] == teams[i2][j2] && teams[i1][j1].sigma >= 0.0
    requires positions[i1] <= positions[i2]
    ensures var u := UpdateMultiTeamRatings(teams, positions).value;
      u[i1][j1].mu >= u[i2][j2].mu && u[i1][j1].sigma == u[i2][j2].sigma
    ensures var u := UpdateMultiTeamRatings(teams, positions).value;
      |teams| > 1 && teams[i1][j1].sigma > 0.0 && positions[i1] < positions[i2] ==> u[i1][j1].mu > u[i2][j2].mu
  {
    var r := teams[i1][j1];
    var n := |teams|;
    var s1 := PositionScore(n, positions[i1]);
    var s2 := PositionScore(n, positions[i2]);
    PositionScoreShape(n, positions[i1], positions[i2]);
    var c := r.sigma / 350.0;
    assert MultiAdjusted(r, s1).mu - MultiAdjusted(r, s2).mu == 20.0 * (s1 - s2) * c;
    if n > 1 && r.sigma > 0.0 && positions[i1] < positions[i2] {
      var d := (n - 1) as real;
      assert s1 - s2 == (positions[i2] - positions[i1]) as real / d;
      PositiveProduct(20.0 * (s1 - s2), c);
    } else if s1 > s2 && c > 0.0 {
      PositiveProduct(20.0 * (s1 - s2), c);
    }
  }
}
