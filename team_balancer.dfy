/**
 * `TeamBalancer`: sorts players by a conservative rating and deals them out in
 * snake order, with special cases for one team (up to four players) and a 2:3
 * split (five players), plus the balance score, the swap improver and the
 * team validator.
 */
module TeamBalancer {

  import opened Common
  import opened Constants
  import opened Sorting

  /** The fields of a player record the balancer reads. */
  datatype Player = Player(userId: int, ratingMu: real, ratingSigma: real)

  /** The sort key `rating_mu - rating_sigma * 0.5`. */
  function EffectiveRating(p: Player): real {
    p.ratingMu - p.ratingSigma * 0.5
  }

  /** `sorted(players, key=effective rating, reverse=True)`. */
  function SortedPlayers(players: seq<Player>): (r: seq<Player>)
    ensures |r| == |players| && multiset(r) == multiset(players)
    ensures Descending(r, EffectiveRating)
  {
    SortDesc(players, EffectiveRating)
  }

  function UserIds(ps: seq<Player>): (ids: seq<int>)
    ensures |ids| == |ps|
  {
    seq(|ps|, i requires 0 <= i < |ps| => ps[i].userId)
  }

  // ---------------------------------------------------------------------------
  // Snake order

  /** One move of the draft cursor: step in the current direction and bounce at either end. */
  function Advance(teamIndex: int, direction: int, numTeams: int): (int, int) {
    var next := teamIndex + direction;
    if next >= numTeams then (numTeams - 1, -1)
    else if next < 0 then (0, 1)
    else (next, direction)
  }

  /** The cursor `(team_index, direction)` before the `i`-th pick. */
  function SnakeState(i: nat, numTeams: int): (int, int) {
    if i == 0 then (0, 1)
    else
      var s := SnakeState(i - 1, numTeams);
      Advance(s.0, s.1, numTeams)
  }

  /** The team that receives the `i`-th pick. */
  function SnakeIndex(i: nat, numTeams: int): int {
    SnakeState(i, numTeams).0
  }

  /** `(pass, position)` of the `i`-th pick: which sweep over the teams it belongs to, and how far into it. */
  function PassPos(i: nat, k: nat): (r: (nat, nat))
    requires k > 0
    ensures r.1 < k
  {
    if i == 0 then (0, 0)
    else
      var prev := PassPos(i - 1, k);
      if prev.1 + 1 == k then (prev.0 + 1, 0) else (prev.0, prev.1 + 1)
  }

  /** Even sweeps go 0, 1, ..., k-1; odd sweeps come back k-1, ..., 0. */
  lemma {:induction false} SnakeClosedForm(i: nat, k: nat)
    requires k > 0
    ensures var pp := PassPos(i, k);
      SnakeState(i, k) == (if pp.0 % 2 == 0 then (pp.1, 1) else (k - 1 - pp.1, -1))
  {
    if i > 0 {
      SnakeClosedForm(i - 1, k);
    }
  }

  lemma SnakeIndexRange(i: nat, k: nat)
    requires k > 0
    ensures 0 <= SnakeIndex(i, k) < k
  {
    SnakeClosedForm(i, k);
  }

  /** `(pass, position)` are the quotient and remainder of `i` by `k`. */
  lemma {:induction false} PassPosValue(i: nat, k: nat)
    requires k > 0
    ensures PassPos(i, k).0 * k + PassPos(i, k).1 == i
  {
    if i > 0 {
      PassPosValue(i - 1, k);
      var prev := PassPos(i - 1, k);
      if prev.1 + 1 == k {
        assert (prev.0 + 1) * k == prev.0 * k + k;
      }
    }
  }

  /** The players of `s`, in order, that the snake order deals to team `t`. */
  function DealTo<T>(s: seq<T>, k: int, t: int): seq<T> {
    if |s| == 0 then []
    else DealTo(s[..|s| - 1], k, t) + (if SnakeIndex(|s| - 1, k) == t then [s[|s| - 1]] else [])
  }

  /** All `k` teams of the snake order over `s`. */
  function Deal<T>(s: seq<T>, k: nat): (teams: seq<seq<T>>)
    ensures |teams| == k
  {
    seq(k, t requires 0 <= t < k => DealTo(s, k, t))
  }

  /** The teams `_snake_draft_balance` forms. */
  function SnakeTeams(players: seq<Player>, k: nat): (teams: seq<seq<Player>>)
    ensures |teams| == k
  {
    Deal(SortedPlayers(players), k)
  }

  /** Dealing one more pick appends it to exactly one team. */
  lemma DealStep<T>(s: seq<T>, k: nat)
    requires k > 0 && |s| > 0
    ensures var j := SnakeIndex(|s| - 1, k);
      0 <= j < k &&
      Deal(s, k) == Deal(s[..|s| - 1], k)[j := Deal(s[..|s| - 1], k)[j] + [s[|s| - 1]]]
  {
    var init := s[..|s| - 1];
    var j := SnakeIndex(|s| - 1, k);
    SnakeIndexRange(|s| - 1, k);
    var stepped := Deal(init, k)[j := Deal(init, k)[j] + [s[|s| - 1]]];
    forall t | 0 <= t < k ensures Deal(s, k)[t] == stepped[t] {
      assert Deal(s, k)[t] == DealTo(s, k, t) == DealTo(init, k, t) + (if j == t then [s[|s| - 1]] else []);
    }
  }

  /** Every player lands in exactly one team: the teams together are a permutation of the input. */
  lemma {:induction false} DealPermutation<T>(s: seq<T>, k: nat)
    requires k > 0
    ensures multiset(Flatten(Deal(s, k))) == multiset(s)
  {
    if |s| == 0 {
      assert Deal(s, k) == EmptyTeams<T>(k);
      FlattenEmpties<T>(k);
    } else {
      var init := s[..|s| - 1];
      var x := s[|s| - 1];
      assert multiset(s) == multiset(init) + multiset{x} by {
        assert s == init + [x];
      }
      DealPermutation(init, k);
      DealStep(s, k);
      AppendToOne(Deal(init, k), SnakeIndex(|s| - 1, k), x);
    }
  }

  /** `[[] for _ in range(k)]`. */
  function EmptyTeams<T>(k: nat): (teams: seq<seq<T>>)
    ensures |teams| == k && forall t :: 0 <= t < k ==> teams[t] == []
  {
    seq(k, _ => [])
  }

  lemma {:induction false} FlattenEmpties<T>(k: nat)
    ensures Flatten(EmptyTeams<T>(k)) == []
  {
    if k > 0 {
      FlattenEmpties<T>(k - 1);
      assert EmptyTeams<T>(k)[..k - 1] == EmptyTeams<T>(k - 1);
    }
  }

  /**
   * The size of team `t` after `n` picks: one per finished sweep, plus one
   * if the unfinished sweep has already reached it.
   */
  lemma {:induction false} DealSizes<T>(s: seq<T>, k: nat, t: nat)
    requires k > 0 && t < k
    ensures var pp := PassPos(|s|, k);
      |DealTo(s, k, t)| == pp.0 + (if (if pp.0 % 2 == 0 then t < pp.1 else t >= k - pp.1) then 1 else 0)
  {
    if |s| > 0 {
      DealSizes(s[..|s| - 1], k, t);
      SnakeClosedForm(|s| - 1, k);
    }
  }

  /** Snake-draft team sizes differ by at most one. */
  lemma DealBalanced<T>(s: seq<T>, k: nat, t1: nat, t2: nat)
    requires k > 0 && t1 < k && t2 < k
    ensures |DealTo(s, k, t1)| - |DealTo(s, k, t2)| <= 1
  {
    DealSizes(s, k, t1);
    DealSizes(s, k, t2);
  }

  /** The first pick opens team 0. */
  lemma {:induction false} DealFirst<T>(s: seq<T>, k: nat)
    requires k > 0 && |s| > 0
    ensures |DealTo(s, k, 0)| > 0 && DealTo(s, k, 0)[0] == s[0]
  {
    if |s| > 1 {
      DealFirst(s[..|s| - 1], k);
    } else {
      assert s[..0] == [];
    }
  }

  /** The player with the largest sort key heads team 0. */
  lemma SnakeTopPlayerInTeamZero(players: seq<Player>, k: nat)
    requires k > 0 && |players| > 0
    ensures |SnakeTeams(players, k)[0]| > 0
    ensures forall p :: p in players ==> EffectiveRating(p) <= EffectiveRating(SnakeTeams(players, k)[0][0])
  {
    DealFirst(SortedPlayers(players), k);
    SortDescHeadIsMax(players, EffectiveRating);
  }

  /**
   * `_snake_draft_balance(players, num_teams)`. With no teams and at least
   * one player Python fails on `teams[0]`.
   */
  method SnakeDraftBalance(players: seq<Player>, numTeams: int) returns (teams: seq<seq<Player>>)
    requires numTeams >= 1 || |players| == 0
    ensures numTeams >= 1 ==> teams == SnakeTeams(players, numTeams)
    ensures numTeams < 1 ==> teams == []
  {
    var sortedPlayers := SortedPlayers(players);
    if numTeams < 1 {
      return [];
    }
    teams := EmptyTeams(numTeams);
    var teamIndex, direction := 0, 1;
    for i := 0 to |sortedPlayers|
      invariant (teamIndex, direction) == SnakeState(i, numTeams)
      invariant Dealt(teams, sortedPlayers, i, numTeams)
    {
      assert 0 <= teamIndex < numTeams && Dealt(teams[teamIndex := teams[teamIndex] + [sortedPlayers[i]]], sortedPlayers, i + 1, numTeams) by {
        DealtStep(teams, sortedPlayers, i, numTeams);
      }
      teams := teams[teamIndex := teams[teamIndex] + [sortedPlayers[i]]];
      teamIndex := teamIndex + direction;
      if teamIndex >= numTeams {
        teamIndex := numTeams - 1;
        direction := -1;
      } else if teamIndex < 0 {
        teamIndex := 0;
        direction := 1;
      }
    }
    DealtAll(teams, sortedPlayers, numTeams);
  }

  /** `teams` holds the snake deal of the first `i` picks of `s`. */
  ghost predicate Dealt<T>(teams: seq<seq<T>>, s: seq<T>, i: nat, k: nat)
    requires i <= |s|
  {
    |teams| == k && forall t :: 0 <= t < k ==> teams[t] == DealTo(s[..i], k, t)
  }

  /** The next pick goes to the team `SnakeIndex` names. */
  lemma DealtStep<T>(teams: seq<seq<T>>, s: seq<T>, i: nat, k: nat)
    requires k > 0 && i < |s| && Dealt(teams, s, i, k)
    ensures var j := SnakeIndex(i, k);
      0 <= j < k && Dealt(teams[j := teams[j] + [s[i]]], s, i + 1, k)
  {
    SnakeIndexRange(i, k);
    assert s[..i + 1][..i] == s[..i];
  }

  lemma DealtAll<T>(teams: seq<seq<T>>, s: seq<T>, k: nat)
    requires Dealt(teams, s, |s|, k)
    ensures teams == Deal(s, k)
  {
    assert s[..|s|] == s;
  }

  // ---------------------------------------------------------------------------
  // Five players

  /**
   * `_split_five_players`: the two best players against the rest. Python
   * divides by both team sizes when logging, so it needs three players at least.
   */
  function SplitFivePlayers(players: seq<Player>): (teams: seq<seq<Player>>)
    requires |players| >= 3
    ensures |teams| == 2
  {
    var sortedPlayers := SortedPlayers(players);
    [sortedPlayers[..2], sortedPlayers[2..]]
  }

  /** Five players split 2:3, nobody lost, and every player of the pair sorts ahead of every player of the trio. */
  lemma SplitFiveProperties(players: seq<Player>)
    requires |players| == 5
    ensures var teams := SplitFivePlayers(players);
      |teams[0]| == 2 && |teams[1]| == 3 &&
      multiset(teams[0]) + multiset(teams[1]) == multiset(players) &&
      forall p, q :: p in teams[0] && q in teams[1] ==> EffectiveRating(p) >= EffectiveRating(q)
  {
    var s := SortedPlayers(players);
    assert s == s[..2] + s[2..];
    forall p, q | p in s[..2] && q in s[2..] ensures EffectiveRating(p) >= EffectiveRating(q) {
      var i :| 0 <= i < 2 && s[..2][i] == p;
      var j :| 0 <= j < 3 && s[2..][j] == q;
      assert s[i] == p && s[j + 2] == q;
    }
  }

  // ---------------------------------------------------------------------------
  // Ratings and balance

  function Mus(team: seq<Player>): (mus: seq<real>)
    ensures |mus| == |team|
  {
    seq(|team|, i requires 0 <= i < |team| => team[i].ratingMu)
  }

  /** `_calculate_team_rating`: the mean `rating_mu`, or the default 1500 for an empty team. */
  function TeamRating(team: seq<Player>): real {
    if |team| == 0 then DefaultRatingMu else Mean(Mus(team))
  }

  /** A team rating lies between its lowest and its highest `rating_mu`. */
  lemma TeamRatingBounds(team: seq<Player>, lo: real, hi: real)
    requires |team| > 0
    requires forall p :: p in team ==> lo <= p.ratingMu <= hi
    ensures lo <= TeamRating(team) <= hi
  {
    var mus := Mus(team);
    assert forall i :: 0 <= i < |mus| ==> lo <= mus[i] <= hi by {
      forall i | 0 <= i < |mus| ensures lo <= mus[i] <= hi {
        assert team[i] in team;
      }
    }
    SumRealBounds(mus, lo, hi);
    DivBounds(SumReal(mus), |team| as real, lo, hi);
  }

  /** A team whose players all have the same `rating_mu` is rated exactly that. */
  lemma TeamRatingConstant(team: seq<Player>, mu: real)
    requires |team| > 0
    requires forall p :: p in team ==> p.ratingMu == mu
    ensures TeamRating(team) == mu
  {
    TeamRatingBounds(team, mu, mu);
  }

  function TeamRatings(teams: seq<seq<Player>>): (ratings: seq<real>)
    ensures |ratings| == |teams|
  {
    seq(|teams|, t requires 0 <= t < |teams| => TeamRating(teams[t]))
  }

  function Product(a: real, b: real): real {
    a * b
  }

  lemma ProductPositive(a: real, b: real)
    requires (a > 0.0 && b > 0.0) || (a < 0.0 && b < 0.0)
    ensures Product(a, b) > 0.0
  {
    if a < 0.0 {
      assert Product(a, b) == (-a) * (-b);
    }
  }

  /** A square is never negative, and positive unless its root is zero. */
  lemma SquareSign(x: real)
    ensures Product(x, x) >= 0.0
    ensures x != 0.0 ==> Product(x, x) > 0.0
  {
    if x != 0.0 {
      ProductPositive(x, x);
    }
  }

  /** `(r - mean) ** 2` for every rating `r`. */
  function SquaredDeviations(xs: seq<real>, mean: real): (ds: seq<real>)
    ensures |ds| == |xs|
  {
    seq(|xs|, i requires 0 <= i < |xs| => Product(xs[i] - mean, xs[i] - mean))
  }

  /**
   * The square of `_calculate_balance_score`: the population variance of the
   * team ratings, 0 with fewer than two teams. The square root the source
   * takes is strictly increasing, so comparisons of scores are unaffected.
   */
  function BalanceVariance(ratings: seq<real>): real {
    if |ratings| < 2 then 0.0
    else SumReal(SquaredDeviations(ratings, Mean(ratings))) / (|ratings| as real)
  }

  predicate AllEqual(xs: seq<real>) {
    forall i, j :: 0 <= i < |xs| && 0 <= j < |xs| ==> xs[i] == xs[j]
  }

  /** The balance score is never negative, and it is zero exactly when all team ratings agree. */
  lemma BalanceVarianceZero(ratings: seq<real>)
    ensures BalanceVariance(ratings) >= 0.0
    ensures BalanceVariance(ratings) == 0.0 <==> AllEqual(ratings)
  {
    if |ratings| >= 2 {
      var m := Mean(ratings);
      var ds := SquaredDeviations(ratings, m);
      var n := |ratings| as real;
      forall i | 0 <= i < |ds| ensures ds[i] >= 0.0 && (ratings[i] != m ==> ds[i] > 0.0) {
        SquareSign(ratings[i] - m);
      }
      SumRealZero(ds);
      assert BalanceVariance(ratings) == SumReal(ds) / n;
      assert SumReal(ds) / n == 0.0 <==> SumReal(ds) == 0.0;
      if AllEqual(ratings) {
        SumRealConstant(ratings, ratings[0]);
        assert m == ratings[0];
        forall i | 0 <= i < |ds| ensures ds[i] == 0.0 {
          assert ratings[i] - m == 0.0;
        }
      }
      if SumReal(ds) == 0.0 {
        forall i, j | 0 <= i < |ratings| && 0 <= j < |ratings| ensures ratings[i] == ratings[j] {
          assert ds[i] == 0.0 && ds[j] == 0.0;
        }
      }
    }
  }

  /** The (squared) balance score of a set of teams. */
  function Score(teams: seq<seq<Player>>): real {
    BalanceVariance(TeamRatings(teams))
  }

  // ---------------------------------------------------------------------------
  // Swap improver

  /** One round of `random.randint` draws: two team indices and one player index in each team. */
  datatype Draw = Draw(team1: int, team2: int, player1: int, player2: int)

  /**
   * The draws the retry loop accepts: two different non-empty teams, and a
   * player index inside each.
   */
  predicate Acceptable(teams: seq<seq<Player>>, d: Draw) {
    0 <= d.team1 < |teams| && 0 <= d.team2 < |teams| && d.team1 != d.team2 &&
    |teams[d.team1]| > 0 && |teams[d.team2]| > 0 &&
    0 <= d.player1 < |teams[d.team1]| && 0 <= d.player2 < |teams[d.team2]|
  }

  /** Overwriting one player swaps that player for the new one in the flattened multiset. */
  lemma FlattenReplace(teams: seq<seq<Player>>, t: nat, i: nat, y: Player)
    requires t < |teams| && i < |teams[t]|
    ensures multiset(Flatten(teams[t := teams[t][i := y]])) + multiset{teams[t][i]} ==
      multiset(Flatten(teams)) + multiset{y}
  {
    var team := teams[t];
    FlattenUpdate(teams, t, team[i := y]);
    assert multiset(team[i := y]) + multiset{team[i]} == multiset(team) + multiset{y};
    var after := multiset(Flatten(teams[t := team[i := y]]));
    var before := multiset(Flatten(teams));
    MultisetExchange(after, before, multiset(team), multiset(team[i := y]), team[i], y);
  }

  /** Exchanging one player between two different teams keeps the team sizes and the multiset of players. */
  lemma SwapPreserves(teams: seq<seq<Player>>, d: Draw)
    requires Acceptable(teams, d)
    ensures var p1, p2 := teams[d.team1][d.player1], teams[d.team2][d.player2];
      var step := teams[d.team1 := teams[d.team1][d.player1 := p2]];
      var swapped := step[d.team2 := step[d.team2][d.player2 := p1]];
      |swapped| == |teams| &&
      (forall t :: 0 <= t < |teams| ==> |swapped[t]| == |teams[t]|) &&
      multiset(Flatten(swapped)) == multiset(Flatten(teams))
  {
    var t1, t2 := d.team1, d.team2;
    var p1, p2 := teams[t1][d.player1], teams[t2][d.player2];
    var step := teams[t1 := teams[t1][d.player1 := p2]];
    var swapped := step[t2 := step[t2][d.player2 := p1]];
    var m, ms, mw := multiset(Flatten(teams)), multiset(Flatten(step)), multiset(Flatten(swapped));
    assert ms + multiset{p1} == m + multiset{p2} by {
      FlattenReplace(teams, t1, d.player1, p2);
    }
    assert mw + multiset{p2} == ms + multiset{p1} by {
      assert step[t2][d.player2] == p2;
      FlattenReplace(step, t2, d.player2, p1);
    }
    MultisetCancel(mw, m, multiset{p2});
  }

  /**
   * `_advanced_balance`: start from the snake draft and, for up to
   * `maxIterations` rounds, swap two random players of two different
   * non-empty teams, keeping the result only when it strictly lowers the
   * score. The random numbers come from `draws`; draws the retry loop would
   * reject are skipped, and the improver stops early when the draws run out.
   */
  method AdvancedBalance(players: seq<Player>, numTeams: int, maxIterations: int, draws: seq<Draw>)
    returns (bestTeams: seq<seq<Player>>)
    requires numTeams >= 1
    ensures |bestTeams| == numTeams
    ensures forall t :: 0 <= t < numTeams ==> |bestTeams[t]| == |SnakeTeams(players, numTeams)[t]|
    ensures multiset(Flatten(bestTeams)) == multiset(players)
    ensures Score(bestTeams) <= Score(SnakeTeams(players, numTeams))
  {
    bestTeams := SnakeDraftBalance(players, numTeams);
    DealPermutation(SortedPlayers(players), numTeams);
    var bestScore := Score(bestTeams);
    ghost var snake := bestTeams;
    var next := 0;
    var iteration := 0;
    while iteration < maxIterations
      invariant 0 <= next <= |draws|
      invariant |bestTeams| == numTeams
      invariant forall t :: 0 <= t < numTeams ==> |bestTeams[t]| == |snake[t]|
      invariant multiset(Flatten(bestTeams)) == multiset(players)
      invariant bestScore == Score(bestTeams) <= Score(snake)
      decreases maxIterations - iteration
    {
      var testTeams := bestTeams;
      while next < |draws| && !Acceptable(testTeams, draws[next])
        invariant 0 <= next <= |draws|
        decreases |draws| - next
      {
        next := next + 1;
      }
      if next == |draws| {
        break;
      }
      var d := draws[next];
      next := next + 1;
      SwapPreserves(testTeams, d);
      var player1 := testTeams[d.team1][d.player1];
      var player2 := testTeams[d.team2][d.player2];
      testTeams := testTeams[d.team1 := testTeams[d.team1][d.player1 := player2]];
      testTeams := testTeams[d.team2 := testTeams[d.team2][d.player2 := player1]];
      var testScore := Score(testTeams);
      if testScore < bestScore {
        bestTeams := testTeams;
        bestScore := testScore;
      }
      iteration := iteration + 1;
    }
  }

  // ---------------------------------------------------------------------------
  // Validation

  /** `validate_teams`: as many players in the teams as members, and the same set of ids. */
  function ValidateTeams(teams: seq<seq<Player>>, originalIds: seq<int>): bool {
    var allTeamPlayers := UserIds(Flatten(teams));
    |allTeamPlayers| == |originalIds| && SetOf(allTeamPlayers) == SetOf(originalIds)
  }

  /** Any arrangement of the same players passes the validator. */
  lemma ValidateTeamsOfPermutation(teams: seq<seq<Player>>, players: seq<Player>)
    requires multiset(Flatten(teams)) == multiset(players)
    ensures ValidateTeams(teams, UserIds(players))
  {
    var flat := Flatten(teams);
    assert |flat| == |multiset(flat)| == |multiset(players)| == |players|;
    forall x ensures x in SetOf(UserIds(flat)) <==> x in SetOf(UserIds(players)) {
      if x in SetOf(UserIds(flat)) {
        var i :| 0 <= i < |flat| && flat[i].userId == x;
        assert flat[i] in multiset(players);
        var j :| 0 <= j < |players| && players[j] == flat[i];
        assert UserIds(players)[j] == x;
      }
      if x in SetOf(UserIds(players)) {
        var j :| 0 <= j < |players| && players[j].userId == x;
        assert players[j] in multiset(flat);
        var i :| 0 <= i < |flat| && flat[i] == players[j];
        assert UserIds(flat)[i] == x;
      }
    }
  }

  /** The snake draft always passes the validator. */
  lemma SnakeTeamsValidate(players: seq<Player>, k: nat)
    requires k > 0
    ensures ValidateTeams(SnakeTeams(players, k), UserIds(players))
  {
    DealPermutation(SortedPlayers(players), k);
    ValidateTeamsOfPermutation(SnakeTeams(players, k), players);
  }

  /** With distinct member ids, the validator accepts exactly the rearrangements of the members. */
  lemma ValidateTeamsExact(teams: seq<seq<Player>>, originalIds: seq<int>)
    requires Distinct(originalIds)
    ensures ValidateTeams(teams, originalIds) <==> multiset(UserIds(Flatten(teams))) == multiset(originalIds)
  {
    var ids := UserIds(Flatten(teams));
    if multiset(ids) == multiset(originalIds) {
      assert |ids| == |multiset(ids)| == |originalIds|;
      forall x ensures x in SetOf(ids) <==> x in SetOf(originalIds) {
        assert x in ids <==> x in multiset(ids);
        assert x in originalIds <==> x in multiset(originalIds);
      }
    }
    if ValidateTeams(teams, originalIds) {
      DistinctCard(originalIds);
      CardBound(ids);
      forall x ensures multiset(ids)[x] == multiset(originalIds)[x] {
        DistinctCount(ids, x);
        DistinctCount(originalIds, x);
        assert x in ids <==> x in SetOf(ids);
        assert x in originalIds <==> x in SetOf(originalIds);
      }
    }
  }

  /** Without distinct member ids the validator compares only lengths and sets, not multiplicities. */
  lemma ValidateTeamsIgnoresMultiplicity()
    ensures var teams := [[Player(1, 1500.0, 350.0), Player(1, 1500.0, 350.0), Player(2, 1500.0, 350.0)]];
      ValidateTeams(teams, [1, 2, 2]) && multiset(UserIds(Flatten(teams))) != multiset([1, 2, 2])
  {
    var teams := [[Player(1, 1500.0, 350.0), Player(1, 1500.0, 350.0), Player(2, 1500.0, 350.0)]];
    assert Flatten(teams) == teams[0] by {
      assert teams[..0] == [];
    }
    assert UserIds(Flatten(teams)) == [1, 1, 2];
    assert SetOf([1, 1, 2]) == {1, 2} == SetOf([1, 2, 2]);
    assert multiset([1, 1, 2])[1] == 2;
  }

  // ---------------------------------------------------------------------------
  // Mode selection

  datatype BalancedTeams = BalancedTeams(teams: seq<seq<Player>>, teamRatings: seq<real>, balanceVariance: real)

  /**
   * `create_balanced_teams` after the ratings have been fetched: too few or
   * too many players raise `ValueError`; up to four players form one team,
   * five are split 2:3, more are snake-drafted (`teams[0]` fails when no team
   * is asked for).
   */
  method CreateBalancedTeams(players: seq<Player>, numTeams: int) returns (r: Result<BalancedTeams>)
    ensures |players| < MinPlayersForTeams || |players| > MaxPlayersPerMatch ==> r.Err?
    ensures MinPlayersForTeams <= |players| <= SingleTeamThreshold ==> r.Ok? && r.value.teams == [players]
    ensures |players| == TwoTeamThreshold ==> r.Ok? && r.value.teams == SplitFivePlayers(players)
    ensures TwoTeamThreshold < |players| <= MaxPlayersPerMatch ==>
      if numTeams >= 1 then r.Ok? && r.value.teams == SnakeTeams(players, numTeams) else r.Err?
    ensures r.Ok? ==>
      r.value.teamRatings == TeamRatings(r.value.teams) &&
      r.value.balanceVariance == BalanceVariance(r.value.teamRatings)
  {
    if |players| < MinPlayersForTeams {
      return Err("Need at least 1 players");
    }
    if |players| > MaxPlayersPerMatch {
      return Err("Too many players (max 24)");
    }
    var teams;
    if |players| <= SingleTeamThreshold {
      teams := [players];
    } else if |players| == TwoTeamThreshold {
      teams := SplitFivePlayers(players);
    } else {
      if numTeams < 1 {
        return Err("list index out of range");
      }
      teams := SnakeDraftBalance(players, numTeams);
    }
    var teamRatings := TeamRatings(teams);
    r := Ok(BalancedTeams(teams, teamRatings, BalanceVariance(teamRatings)));
  }
}
