/**
 * How many teams a roster is split into, and how large each team is:
 * `calculate_team_sizes`, `calculate_team_count_and_sizes`, and the team-count
 * decision of the `/create_teams` command.
 */
module TeamSizes {

  import opened Common
  import opened Constants

  /**
   * The even distribution of `total` players over `k` teams: the first
   * `total % k` teams get one player more than the others.
   */
  function EvenSizes(total: int, k: nat): (sizes: seq<int>)
    requires k > 0
    ensures |sizes| == k
  {
    seq(k, i requires 0 <= i < k => if i < total % k then total / k + 1 else total / k)
  }

  /** Sum of the first `j` entries of the even distribution. */
  lemma {:induction false} EvenSizesPrefixSum(total: int, k: nat, j: nat)
    requires 0 < k && j <= k
    ensures Sum(EvenSizes(total, k)[..j]) == j * (total / k) + (if j < total % k then j else total % k)
  {
    if j > 0 {
      var sizes := EvenSizes(total, k);
      EvenSizesPrefixSum(total, k, j - 1);
      assert sizes[..j][..j - 1] == sizes[..j - 1];
    }
  }

  /** The sizes account for every player. */
  lemma EvenSizesSum(total: int, k: nat)
    requires k > 0
    ensures Sum(EvenSizes(total, k)) == total
  {
    var sizes := EvenSizes(total, k);
    EvenSizesPrefixSum(total, k, k);
    assert sizes[..k] == sizes;
  }

  /** The sizes never increase along the list and differ by at most one. */
  lemma EvenSizesBalanced(total: int, k: nat)
    requires k > 0
    ensures forall i, j :: 0 <= i <= j < k ==> EvenSizes(total, k)[j] <= EvenSizes(total, k)[i]
    ensures forall i, j :: 0 <= i < k && 0 <= j < k ==> EvenSizes(total, k)[i] - EvenSizes(total, k)[j] <= 1
    ensures forall i :: 0 <= i < k ==> EvenSizes(total, k)[i] == total / k + (if i < total % k then 1 else 0)
  {
  }

  /**
   * `calculate_team_sizes(total_players, num_teams)`: zero teams raise
   * `ZeroDivisionError` at the `//`; a negative count gives no teams.
   */
  method CalculateTeamSizes(totalPlayers: int, numTeams: int) returns (r: Result<seq<int>>)
    ensures r.Err? <==> numTeams == 0
    ensures r.Err? ==> r.message == "integer division or modulo by zero"
    ensures numTeams > 0 ==> r == Ok(EvenSizes(totalPlayers, numTeams))
    ensures numTeams < 0 ==> r == Ok([])
  {
    if numTeams == 0 {
      return Err("integer division or modulo by zero");
    }
    var targetSizes: seq<int> := [];
    if numTeams < 0 {
      return Ok(targetSizes);
    }
    var baseSize := totalPlayers / numTeams;
    var extraPlayers := totalPlayers % numTeams;
    for i := 0 to numTeams
      invariant |targetSizes| == i
      invariant forall j :: 0 <= j < i ==> targetSizes[j] == EvenSizes(totalPlayers, numTeams)[j]
    {
      if i < extraPlayers {
        targetSizes := targetSizes + [baseSize + 1];
      } else {
        targetSizes := targetSizes + [baseSize];
      }
    }
    assert targetSizes == EvenSizes(totalPlayers, numTeams);
    r := Ok(targetSizes);
  }

  /** The cases listed beside `calculate_team_sizes`. */
  lemma DistributionCases()
    ensures EvenSizes(9, 3) == [3, 3, 3] && EvenSizes(10, 3) == [4, 3, 3]
    ensures EvenSizes(11, 3) == [4, 4, 3] && EvenSizes(12, 3) == [4, 4, 4]
    ensures EvenSizes(13, 3) == [5, 4, 4] && EvenSizes(14, 3) == [5, 5, 4]
    ensures EvenSizes(15, 3) == [5, 5, 5] && EvenSizes(8, 2) == [4, 4]
    ensures EvenSizes(9, 2) == [5, 4] && EvenSizes(10, 2) == [5, 5]
    ensures EvenSizes(16, 4) == [4, 4, 4, 4] && EvenSizes(17, 4) == [5, 4, 4, 4]
    ensures EvenSizes(18, 4) == [5, 5, 4, 4] && EvenSizes(19, 4) == [5, 5, 5, 4]
    ensures EvenSizes(20, 4) == [5, 5, 5, 5] && EvenSizes(21, 5) == [5, 4, 4, 4, 4]
    ensures EvenSizes(22, 5) == [5, 5, 4, 4, 4] && EvenSizes(24, 6) == [4, 4, 4, 4, 4, 4]
  {
  }

  /** Which rule of `calculate_team_count_and_sizes` applied. */
  datatype SizeCase = SingleTeam | TwoThreeSplit | ThreeThreeSplit | ThreeFourSplit | FourFourSplit | ThreeToFourPerTeam

  /** The team count chosen by `calculate_team_count_and_sizes`. */
  function TeamCount(playerCount: int): (k: int)
    ensures k >= 1
    ensures playerCount <= SingleTeamThreshold ==> k == 1
    ensures SingleTeamThreshold < playerCount <= 8 ==> k == 2
    ensures playerCount >= 9 ==> 3 <= k <= 6 && 3 * k <= playerCount
  {
    if playerCount <= SingleTeamThreshold then 1
    else if playerCount == TwoTeamThreshold then 2
    else if playerCount == 6 then 2
    else if playerCount == 7 then 2
    else if playerCount == 8 then 2
    else
      var aimed := Max(3, (playerCount + 3) / 4);
      var maxReasonable := Min(6, playerCount / 3);
      Min(aimed, maxReasonable)
  }

  function SizeCaseOf(playerCount: int): SizeCase {
    if playerCount <= SingleTeamThreshold then SingleTeam
    else if playerCount == TwoTeamThreshold then TwoThreeSplit
    else if playerCount == 6 then ThreeThreeSplit
    else if playerCount == 7 then ThreeFourSplit
    else if playerCount == 8 then FourFourSplit
    else ThreeToFourPerTeam
  }

  function Max(a: int, b: int): int { if a >= b then a else b }
  function Min(a: int, b: int): int { if a <= b then a else b }

  /** `calculate_team_count_and_sizes(player_count)`. */
  method CalculateTeamCountAndSizes(playerCount: int) returns (actualNumTeams: int, expectedSizes: seq<int>, sizeCase: SizeCase)
    ensures actualNumTeams == TeamCount(playerCount) && sizeCase == SizeCaseOf(playerCount)
    ensures expectedSizes == EvenSizes(playerCount, actualNumTeams)
  {
    if playerCount <= SingleTeamThreshold {
      actualNumTeams, sizeCase := 1, SingleTeam;
    } else if playerCount == TwoTeamThreshold {
      actualNumTeams, sizeCase := 2, TwoThreeSplit;
    } else if playerCount == 6 {
      actualNumTeams, sizeCase := 2, ThreeThreeSplit;
    } else if playerCount == 7 {
      actualNumTeams, sizeCase := 2, ThreeFourSplit;
    } else if playerCount == 8 {
      actualNumTeams, sizeCase := 2, FourFourSplit;
    } else {
      actualNumTeams := Max(3, (playerCount + 3) / 4);
      var maxReasonableTeams := Min(6, playerCount / 3);
      actualNumTeams := Min(actualNumTeams, maxReasonableTeams);
      sizeCase := ThreeToFourPerTeam;
    }
    var baseSize := playerCount / actualNumTeams;
    var extraPlayers := playerCount % actualNumTeams;
    expectedSizes := [];
    for i := 0 to actualNumTeams
      invariant |expectedSizes| == i
      invariant forall j :: 0 <= j < i ==> expectedSizes[j] == EvenSizes(playerCount, actualNumTeams)[j]
    {
      if i < extraPlayers {
        expectedSizes := expectedSizes + [baseSize + 1];
      } else {
        expectedSizes := expectedSizes + [baseSize];
      }
    }
  }

  /** Rosters of up to eight players get the fixed splits the script checks. */
  lemma SmallRosters(playerCount: int)
    ensures playerCount <= 4 ==> EvenSizes(playerCount, TeamCount(playerCount)) == [playerCount]
    ensures playerCount == 5 ==> EvenSizes(5, TeamCount(5)) == [3, 2]
    ensures playerCount == 6 ==> EvenSizes(6, TeamCount(6)) == [3, 3]
    ensures playerCount == 7 ==> EvenSizes(7, TeamCount(7)) == [4, 3]
    ensures playerCount == 8 ==> EvenSizes(8, TeamCount(8)) == [4, 4]
  {
    if playerCount <= 4 {
      assert EvenSizes(playerCount, 1)[0] == playerCount;
    }
  }

  /** A positive factor can be cancelled from a strict comparison of products. */
  lemma MulCancel(a: int, b: int, k: int)
    requires k > 0 && a * k < b * k
    ensures a < b
  {
  }

  /** When `3k <= n <= 4k`, every team of the even distribution has three or four players. */
  lemma EvenSizesThreeToFour(n: int, k: nat)
    requires k > 0 && 3 * k <= n <= 4 * k
    ensures forall i :: 0 <= i < k ==> 3 <= EvenSizes(n, k)[i] <= 4
  {
    var q, r := n / k, n % k;
    assert n == q * k + r && 0 <= r < k;
    assert (q + 1) * k == q * k + k;
    MulCancel(3, q + 1, k);
    MulCancel(q, 5, k);
    var sizes := EvenSizes(n, k);
    forall i | 0 <= i < k
      ensures 3 <= sizes[i] <= 4
    {
      assert sizes[i] == if i < r then q + 1 else q;
    }
  }

  /** For every roster of 9 to 24 players, each team has three or four players. */
  lemma LargeRostersThreeToFour(n: int)
    requires 9 <= n <= 24
    ensures forall i :: 0 <= i < TeamCount(n) ==> 3 <= EvenSizes(n, TeamCount(n))[i] <= 4
  {
    var k := TeamCount(n);
    var aimed := Max(3, (n + 3) / 4);
    assert 4 * ((n + 3) / 4) >= n;
    if k == n / 3 {
      assert 3 * (n / 3) >= n - 2;
    }
    EvenSizesThreeToFour(n, k);
  }

  /**
   * The team count of `/create_teams`: the roster size must lie between
   * `MIN_PLAYERS_FOR_TEAMS` and `MAX_PLAYERS_PER_MATCH`; four or fewer players
   * give one team and five give two whatever was requested; otherwise the
   * requested count (default 3) must lie in [2, 6] and is raised to
   * `max(2, (n + 4) // 5)` when smaller.
   */
  function ActualNumTeams(playerCount: int, numTeams: Option<int>): (r: Result<int>)
    ensures r.Ok? <==> (MinPlayersForTeams <= playerCount <= MaxPlayersPerMatch &&
      (playerCount <= TwoTeamThreshold || 2 <= numTeams.GetOr(DefaultNumTeams) <= 6))
  {
    if playerCount < MinPlayersForTeams then Err("Not Enough Players")
    else if playerCount > MaxPlayersPerMatch then Err("Too Many Players")
    else if playerCount <= SingleTeamThreshold then Ok(1)
    else if playerCount == TwoTeamThreshold then Ok(2)
    else
      var requested := if numTeams.None? then DefaultNumTeams else numTeams.value;
      if requested < 2 then Err("Invalid Team Count")
      else if requested > 6 then Err("Too Many Teams")
      else
        var minTeamsNeeded := Max(2, (playerCount + 4) / 5);
        Ok(if requested < minTeamsNeeded then minTeamsNeeded else requested)
  }

  /**
   * Which refusal `/create_teams` gives: the roster bounds are checked
   * first, and from six players on the requested (or default) count.
   */
  lemma ActualNumTeamsRefusals(playerCount: int, numTeams: Option<int>)
    ensures playerCount < MinPlayersForTeams ==> ActualNumTeams(playerCount, numTeams) == Err("Not Enough Players")
    ensures playerCount > MaxPlayersPerMatch ==> ActualNumTeams(playerCount, numTeams) == Err("Too Many Players")
    ensures TwoTeamThreshold < playerCount <= MaxPlayersPerMatch && numTeams.GetOr(DefaultNumTeams) < 2 ==>
      ActualNumTeams(playerCount, numTeams) == Err("Invalid Team Count")
    ensures TwoTeamThreshold < playerCount <= MaxPlayersPerMatch && numTeams.GetOr(DefaultNumTeams) > 6 ==>
      ActualNumTeams(playerCount, numTeams) == Err("Too Many Teams")
  {
  }

  /** Small rosters ignore the requested count. */
  lemma ActualNumTeamsSmall(playerCount: int, numTeams: Option<int>)
    requires 1 <= playerCount <= 5
    ensures ActualNumTeams(playerCount, numTeams) == Ok(if playerCount == 5 then 2 else 1)
  {
  }

  /**
   * From six players on, an accepted count is at least what was asked for,
   * at least `max(2, (n + 4) // 5)`, and always between 2 and 6.
   */
  lemma ActualNumTeamsRange(playerCount: int, numTeams: Option<int>)
    requires 6 <= playerCount <= MaxPlayersPerMatch
    requires ActualNumTeams(playerCount, numTeams).Ok?
    ensures var k := ActualNumTeams(playerCount, numTeams).value;
      2 <= k <= 6 && k >= numTeams.GetOr(DefaultNumTeams) && k >= (playerCount + 4) / 5 &&
      (k == numTeams.GetOr(DefaultNumTeams) || k == (playerCount + 4) / 5)
  {
  }
}
