/**
 * The result routes over an in-memory store: `record_placement_result` and
 * the rating part of `update_match_result` in `api/routes/matches.py`, and
 * `apply_advanced_rating_changes` in `api/services/advanced_rating_service.py`.
 * Each visits the match's players one by one, rewriting the player's
 * `match_players` row and, when the user exists, the user's `users` row.
 */
module MatchStore {

  import opened Common
  import opened Text
  import opened Records
  import opened Placement
  import Glicko
  import AdvancedRating

  /** The `users` table, keyed by guild and user id. */
  type Users = map<(int, int), User>

  /** `(match_id, user_id)` is the key of `match_players`: a user plays a match at most once. */
  predicate DistinctUsers(ps: seq<MatchPlayer>) {
    forall i, j :: 0 <= i < j < |ps| ==> ps[i].userId != ps[j].userId
  }

  // ---------------------------------------------------------------------------
  // Scores of `update_match_result`

  /**
   * The score and the statistics entry a team gets: a win/loss result with a
   * truthy winning team gives 1.0 and "win" to that team and 0.0 and "loss"
   * to the others; a draw gives 0.5 and "draw"; a forfeit 0.25 and "loss";
   * anything else updates nobody.
   */
  function ResultScore(resultType: string, winningTeam: Option<int>, teamNumber: int): Option<(real, PlayerResult)> {
    if resultType == "win_loss" && winningTeam.Some? && winningTeam.value != 0 then
      Some(if teamNumber == winningTeam.value then (1.0, Win) else (0.0, Loss))
    else if resultType == "draw" then Some((0.5, Draw))
    else if resultType == "forfeit" then Some((0.25, Loss))
    else None
  }

  lemma ResultScoreCases(resultType: string, winningTeam: Option<int>, teamNumber: int)
    ensures resultType == "win_loss" && winningTeam == Some(teamNumber) && teamNumber != 0 ==>
      ResultScore(resultType, winningTeam, teamNumber) == Some((1.0, Win))
    ensures resultType == "win_loss" && winningTeam.Some? && winningTeam.value != 0 && winningTeam.value != teamNumber ==>
      ResultScore(resultType, winningTeam, teamNumber) == Some((0.0, Loss))
    ensures resultType == "win_loss" && (winningTeam == None || winningTeam == Some(0)) ==>
      ResultScore(resultType, winningTeam, teamNumber) == None
    ensures resultType == "draw" ==> ResultScore(resultType, winningTeam, teamNumber) == Some((0.5, Draw))
    ensures resultType == "forfeit" ==> ResultScore(resultType, winningTeam, teamNumber) == Some((0.25, Loss))
    ensures resultType !in ["win_loss", "draw", "forfeit"] ==> ResultScore(resultType, winningTeam, teamNumber) == None
    ensures ResultScore(resultType, winningTeam, teamNumber).Some? ==>
      0.0 <= ResultScore(resultType, winningTeam, teamNumber).value.0 <= 1.0 &&
      ResultScore(resultType, winningTeam, teamNumber).value.1 != Undecided
  {
  }

  // ---------------------------------------------------------------------------
  // Teams of `apply_advanced_rating_changes`

  /** `TeamData` without its player list: team number, placement and the mean rating before the match. */
  datatype TeamData = TeamData(teamNumber: int, placement: int, avgRating: real)

  /** `[mp for mp in match_players if mp.team_number == team_num]`. */
  function TeamPlayers(ps: seq<MatchPlayer>, teamNumber: int): seq<MatchPlayer> {
    if |ps| == 0 then []
    else (if ps[0].teamNumber == teamNumber then [ps[0]] else []) + TeamPlayers(ps[1..], teamNumber)
  }

  /** A player is among its own team's players, and every member carries the team number. */
  lemma {:induction false} TeamPlayersMembers(ps: seq<MatchPlayer>, teamNumber: int)
    ensures forall m :: m in TeamPlayers(ps, teamNumber) <==> m in ps && m.teamNumber == teamNumber
  {
    if |ps| > 0 {
      TeamPlayersMembers(ps[1..], teamNumber);
      assert ps == [ps[0]] + ps[1..];
    }
  }

  function MusBefore(ps: seq<MatchPlayer>): (mus: seq<real>)
    ensures |mus| == |ps| && forall i :: 0 <= i < |ps| ==> mus[i] == ps[i].muBefore
  {
    seq(|ps|, i requires 0 <= i < |ps| => ps[i].muBefore)
  }

  /** The entry `teams_data` holds for a team with players. */
  function Summary(ps: seq<MatchPlayer>, teamNumber: int, placement: int): TeamData
    requires |TeamPlayers(ps, teamNumber)| > 0
  {
    TeamData(teamNumber, placement, Mean(MusBefore(TeamPlayers(ps, teamNumber))))
  }

  /** `teams_data`: the submitted teams in order, keeping those with players, each with its mean mu before the match. */
  function TeamsData(placements: seq<(int, int)>, ps: seq<MatchPlayer>): (teams: seq<TeamData>)
    ensures |teams| <= |placements|
  {
    if |placements| == 0 then []
    else
      var t := placements[0].0;
      var rest := TeamsData(placements[1..], ps);
      if |TeamPlayers(ps, t)| > 0 then [Summary(ps, t, placements[0].1)] + rest else rest
  }

  /** `team` is the summary of its own team number, which has players. */
  predicate IsSummary(ps: seq<MatchPlayer>, team: TeamData) {
    |TeamPlayers(ps, team.teamNumber)| > 0 && team == Summary(ps, team.teamNumber, team.placement)
  }

  /** Every entry is the summary of a submitted team that has players. */
  lemma {:induction false} TeamsDataEntries(placements: seq<(int, int)>, ps: seq<MatchPlayer>, i: nat)
    requires i < |TeamsData(placements, ps)|
    ensures var team := TeamsData(placements, ps)[i];
      (team.teamNumber, team.placement) in placements && IsSummary(ps, team)
  {
    var t := placements[0].0;
    var tail := placements[1..];
    var teams := TeamsData(placements, ps);
    var rest := TeamsData(tail, ps);
    var has := |TeamPlayers(ps, t)| > 0;
    if has && i == 0 {
      var first := Summary(ps, t, placements[0].1);
      assert teams[0] == first;
      assert IsSummary(ps, first);
    } else {
      var j := if has then i - 1 else i;
      assert teams[i] == rest[j];
      TeamsDataEntries(tail, ps, j);
      var key := (rest[j].teamNumber, rest[j].placement);
      var k :| 0 <= k < |tail| && tail[k] == key;
      assert placements[k + 1] == key;
    }
  }

  /** Every submitted team that has players has its summary among the entries. */
  lemma {:induction false} TeamsDataComplete(placements: seq<(int, int)>, ps: seq<MatchPlayer>, j: nat)
    requires j < |placements| && |TeamPlayers(ps, placements[j].0)| > 0
    ensures Summary(ps, placements[j].0, placements[j].1) in TeamsData(placements, ps)
  {
    if j > 0 {
      TeamsDataComplete(placements[1..], ps, j - 1);
    }
  }

  /** Every entry's team number is a submitted key. */
  lemma TeamsDataNumbers(placements: seq<(int, int)>, ps: seq<MatchPlayer>, i: nat)
    requires i < |TeamsData(placements, ps)|
    ensures exists j :: 0 <= j < |placements| && placements[j].0 == TeamsData(placements, ps)[i].teamNumber
  {
    TeamsDataEntries(placements, ps, i);
    var team := TeamsData(placements, ps)[i];
    var j :| 0 <= j < |placements| && placements[j] == (team.teamNumber, team.placement);
    assert placements[j].0 == team.teamNumber;
  }

  /** A dict has distinct keys, so `teams_data` has distinct team numbers. */
  lemma {:induction false} TeamsDataDistinct(placements: seq<(int, int)>, ps: seq<MatchPlayer>)
    requires DistinctKeys(placements)
    ensures DistinctTeams(TeamsData(placements, ps))
  {
    if |placements| > 0 {
      var rest := placements[1..];
      assert DistinctKeys(rest);
      TeamsDataDistinct(rest, ps);
      if |TeamPlayers(ps, placements[0].0)| > 0 {
        var teams := TeamsData(placements, ps);
        var tail := TeamsData(rest, ps);
        assert teams == [teams[0]] + tail;
        forall i | 0 <= i < |tail| ensures tail[i].teamNumber != placements[0].0 {
          TeamsDataNumbers(rest, ps, i);
        }
      }
    }
  }

  /** `opponent_teams`, by their mean ratings: every team but `teamNumber`, in order. */
  function Opponents(teams: seq<TeamData>, teamNumber: int): (opponents: seq<real>)
    ensures |opponents| <= |teams|
  {
    if |teams| == 0 then []
    else (if teams[0].teamNumber != teamNumber then [teams[0].avgRating] else []) + Opponents(teams[1..], teamNumber)
  }

  /** Team numbers that occur once each. */
  predicate DistinctTeams(teams: seq<TeamData>) {
    forall i, j :: 0 <= i < j < |teams| ==> teams[i].teamNumber != teams[j].teamNumber
  }

  /** With distinct team numbers, a team faces every other team, one mean rating each: the list is one shorter than the teams. */
  lemma {:induction false} OpponentsCount(teams: seq<TeamData>, k: nat)
    requires DistinctTeams(teams) && k < |teams|
    ensures |Opponents(teams, teams[k].teamNumber)| == |teams| - 1
    ensures forall x :: x in Opponents(teams, teams[k].teamNumber) ==>
      exists i :: 0 <= i < |teams| && i != k && teams[i].avgRating == x
  {
    var t := teams[k].teamNumber;
    var rest := teams[1..];
    if k == 0 {
      OpponentsOfAbsent(rest, t);
    } else {
      OpponentsCount(rest, k - 1);
    }
  }

  /** A team number that no entry carries leaves every mean rating in the list. */
  lemma {:induction false} OpponentsOfAbsent(teams: seq<TeamData>, t: int)
    requires forall i :: 0 <= i < |teams| ==> teams[i].teamNumber != t
    ensures |Opponents(teams, t)| == |teams|
    ensures forall x :: x in Opponents(teams, t) ==> exists i :: 0 <= i < |teams| && teams[i].avgRating == x
  {
    if |teams| > 0 {
      OpponentsOfAbsent(teams[1..], t);
    }
  }

  /** The entry of `teams_data` for a team, if the team has one. */
  function TeamOf(teams: seq<TeamData>, teamNumber: int): (r: Option<TeamData>)
    ensures r.Some? ==> r.value in teams && r.value.teamNumber == teamNumber
    ensures r.None? <==> forall i :: 0 <= i < |teams| ==> teams[i].teamNumber != teamNumber
  {
    if |teams| == 0 then None
    else if teams[0].teamNumber == teamNumber then Some(teams[0])
    else
      var r := TeamOf(teams[1..], teamNumber);
      assert forall i :: 1 <= i < |teams| ==> teams[i] == teams[1..][i - 1];
      r
  }

  /** With distinct team numbers the lookup finds the one entry of a team. */
  lemma {:induction false} TeamOfDistinct(teams: seq<TeamData>, i: nat)
    requires DistinctTeams(teams) && i < |teams|
    ensures TeamOf(teams, teams[i].teamNumber) == Some(teams[i])
  {
    if i > 0 {
      TeamOfDistinct(teams[1..], i - 1);
    }
  }

  /**
   * A player whose team was submitted finds that team's entry, holding the
   * submitted placement and the mean mu of the team's players, and faces
   * every other entry.
   */
  lemma PlayerTeamFound(placements: seq<(int, int)>, ps: seq<MatchPlayer>, i: nat, j: nat)
    requires DistinctKeys(placements) && i < |ps| && j < |placements| && placements[j].0 == ps[i].teamNumber
    ensures |TeamPlayers(ps, ps[i].teamNumber)| > 0
    ensures TeamOf(TeamsData(placements, ps), ps[i].teamNumber) == Some(Summary(ps, ps[i].teamNumber, placements[j].1))
    ensures |Opponents(TeamsData(placements, ps), ps[i].teamNumber)| == |TeamsData(placements, ps)| - 1
  {
    TeamPlayersMembers(ps, ps[i].teamNumber);
    assert ps[i] in TeamPlayers(ps, ps[i].teamNumber);
    TeamsDataComplete(placements, ps, j);
    TeamsDataDistinct(placements, ps);
    var teams := TeamsData(placements, ps);
    var k :| 0 <= k < |teams| && teams[k] == Summary(ps, ps[i].teamNumber, placements[j].1);
    TeamOfDistinct(teams, k);
    OpponentsCount(teams, k);
  }

  /** `calculate_advanced_rating_change` for one player of a team in `teams_data`. */
  function PlayerBreakdown(p: MatchPlayer, team: TeamData, teams: seq<TeamData>): AdvancedRating.Breakdown {
    AdvancedRating.AdvancedRatingChange(p.muBefore, team.avgRating, team.placement, Opponents(teams, team.teamNumber))
  }

  // ---------------------------------------------------------------------------
  // Visiting the players

  /** Which route is writing the results. */
  datatype Rule =
    | Placing(placements: seq<(int, int)>, numTeams: nat)
    | Scoring(resultType: string, winningTeam: Option<int>)
    | Advancing(teams: seq<TeamData>)

  /** The player's new row, from the user's row when the user exists. */
  function Record(rule: Rule, p: MatchPlayer, user: Option<User>): MatchPlayer {
    match rule
    case Placing(d, n) =>
      (match Lookup(d, p.teamNumber)
       case None => p
       case Some(placement) => if user.None? then p else PlacedPlayer(p, placement, n, user.value))
    case Scoring(resultType, winningTeam) =>
      (match ResultScore(resultType, winningTeam, p.teamNumber)
       case None => p
       case Some(scored) =>
         var r := Glicko.Adjusted(Glicko.Rating(p.muBefore, p.sigmaBefore), scored.0);
         p.(muAfter := Some(r.mu), sigmaAfter := Some(r.sigma)))
    case Advancing(teams) =>
      (match TeamOf(teams, p.teamNumber)
       case None => p
       case Some(team) =>
         var b := PlayerBreakdown(p, team, teams);
         p.(muAfter := Some(p.muBefore + b.finalChange),
           sigmaAfter := Some(Glicko.SigmaAfter(p.sigmaBefore)),
           result := if team.placement == 1 then Win else Loss))
  }

  /** The user's new row. */
  function Account(rule: Rule, p: MatchPlayer, user: User): User {
    match rule
    case Placing(d, n) =>
      (match Lookup(d, p.teamNumber)
       case None => user
       case Some(placement) => PlacedUser(user, placement, n))
    case Scoring(resultType, winningTeam) =>
      (match ResultScore(resultType, winningTeam, p.teamNumber)
       case None => user
       case Some(scored) =>
         var r := Glicko.Adjusted(Glicko.Rating(p.muBefore, p.sigmaBefore), scored.0);
         Counted(user.(ratingMu := r.mu, ratingSigma := r.sigma), scored.1))
    case Advancing(teams) =>
      (match TeamOf(teams, p.teamNumber)
       case None => user
       case Some(team) =>
         var b := PlayerBreakdown(p, team, teams);
         Counted(user.(ratingMu := p.muBefore + b.finalChange, ratingSigma := Glicko.SigmaAfter(p.sigmaBefore)),
           if team.placement == 1 then Win else Loss))
  }

  /** One player: the new row, and the user's row rewritten when the user exists. */
  function Visit(p: MatchPlayer, users: Users, rule: Rule): (MatchPlayer, Users) {
    var key := UserKey(p);
    if key in users then (Record(rule, p, Some(users[key])), users[key := Account(rule, p, users[key])])
    else (Record(rule, p, None), users)
  }

  /** The players visited in order, each seeing the users as the earlier visits left them. */
  function VisitAll(ps: seq<MatchPlayer>, users: Users, rule: Rule): (r: (seq<MatchPlayer>, Users))
    ensures |r.0| == |ps|
  {
    if |ps| == 0 then ([], users)
    else
      var front := VisitAll(ps[..|ps| - 1], users, rule);
      var last := Visit(ps[|ps| - 1], front.1, rule);
      (front.0 + [last.0], last.1)
  }

  /** No user row is added or removed. */
  lemma {:induction false} VisitAllDomain(ps: seq<MatchPlayer>, users: Users, rule: Rule)
    ensures VisitAll(ps, users, rule).1.Keys == users.Keys
  {
    if |ps| > 0 {
      VisitAllDomain(ps[..|ps| - 1], users, rule);
    }
  }

  /** A user with no player among the visited keeps its row. */
  lemma {:induction false} VisitAllUntouched(ps: seq<MatchPlayer>, users: Users, rule: Rule, k: (int, int))
    requires k in users
    requires forall i :: 0 <= i < |ps| ==> UserKey(ps[i]) != k
    ensures k in VisitAll(ps, users, rule).1 && VisitAll(ps, users, rule).1[k] == users[k]
  {
    if |ps| > 0 {
      VisitAllUntouched(ps[..|ps| - 1], users, rule, k);
    }
  }

  /** A visit reads only its own user's row and writes only that row. */
  lemma VisitLocal(p: MatchPlayer, a: Users, b: Users, rule: Rule, k: (int, int))
    requires UserKey(p) in a <==> UserKey(p) in b
    requires UserKey(p) in a ==> a[UserKey(p)] == b[UserKey(p)]
    ensures Visit(p, a, rule).0 == Visit(p, b, rule).0
    ensures UserKey(p) in a ==> UserKey(p) in Visit(p, a, rule).1 && Visit(p, a, rule).1[UserKey(p)] == Visit(p, b, rule).1[UserKey(p)]
    ensures k != UserKey(p) && k in a ==> k in Visit(p, a, rule).1 && Visit(p, a, rule).1[k] == a[k]
  {
  }

  /**
   * With one player per user, the order of the visits does not matter: each
   * player's row and each of their users' rows come out as if that player
   * were visited alone.
   */
  lemma {:induction false} VisitAllEach(ps: seq<MatchPlayer>, users: Users, rule: Rule, i: nat)
    requires DistinctUsers(ps) && i < |ps|
    ensures VisitAll(ps, users, rule).0[i] == Visit(ps[i], users, rule).0
    ensures UserKey(ps[i]) in users ==>
      UserKey(ps[i]) in VisitAll(ps, users, rule).1 &&
      VisitAll(ps, users, rule).1[UserKey(ps[i])] == Account(rule, ps[i], users[UserKey(ps[i])])
    decreases |ps|, 1
  {
    if i < |ps| - 1 {
      VisitAllEachEarlier(ps, users, rule, i);
    } else {
      VisitAllEachLast(ps, users, rule);
    }
  }

  /** `VisitAllEach` for a player before the last: the last visit leaves that player's row and user alone. */
  lemma {:induction false} VisitAllEachEarlier(ps: seq<MatchPlayer>, users: Users, rule: Rule, i: nat)
    requires DistinctUsers(ps) && i < |ps| - 1
    ensures VisitAll(ps, users, rule).0[i] == Visit(ps[i], users, rule).0
    ensures UserKey(ps[i]) in users ==>
      UserKey(ps[i]) in VisitAll(ps, users, rule).1 &&
      VisitAll(ps, users, rule).1[UserKey(ps[i])] == Account(rule, ps[i], users[UserKey(ps[i])])
    decreases |ps|, 0
  {
    var n := |ps|;
    var init := ps[..n - 1];
    var front := VisitAll(init, users, rule);
    var r := VisitAll(ps, users, rule);
    assert r == (front.0 + [Visit(ps[n - 1], front.1, rule).0], Visit(ps[n - 1], front.1, rule).1);
    VisitAllDomain(init, users, rule);
    var key := UserKey(ps[i]);
    assert DistinctUsers(init) by {
      assert forall a :: 0 <= a < n - 1 ==> init[a] == ps[a];
    }
    VisitAllEach(init, users, rule, i);
    assert init[i] == ps[i];
    assert r.0[i] == front.0[i];
    assert UserKey(ps[n - 1]) != key by {
      assert ps[i].userId != ps[n - 1].userId;
    }
    VisitLocal(ps[n - 1], front.1, front.1, rule, key);
  }

  /** `VisitAllEach` for the last player: the earlier visits left that player's user alone. */
  lemma VisitAllEachLast(ps: seq<MatchPlayer>, users: Users, rule: Rule)
    requires DistinctUsers(ps) && |ps| > 0
    ensures VisitAll(ps, users, rule).0[|ps| - 1] == Visit(ps[|ps| - 1], users, rule).0
    ensures UserKey(ps[|ps| - 1]) in users ==>
      UserKey(ps[|ps| - 1]) in VisitAll(ps, users, rule).1 &&
      VisitAll(ps, users, rule).1[UserKey(ps[|ps| - 1])] == Account(rule, ps[|ps| - 1], users[UserKey(ps[|ps| - 1])])
  {
    var n := |ps|;
    var init := ps[..n - 1];
    var front := VisitAll(init, users, rule);
    var key := UserKey(ps[n - 1]);
    VisitAllDomain(init, users, rule);
    if key in users {
      forall a | 0 <= a < |init|
        ensures UserKey(init[a]) != key
      {
        assert init[a] == ps[a] && ps[a].userId != ps[n - 1].userId;
      }
      VisitAllUntouched(init, users, rule, key);
    }
    VisitLocal(ps[n - 1], front.1, users, rule, key);
  }

  /**
   * `record_placement_result`, player by player: a player whose user exists
   * gets the team's placement, the clamped new rating and the result of the
   * placement; the user's row shows the same rating, one more game and
   * exactly one more win, loss or draw. A player without a user row is
   * skipped entirely.
   */
  lemma PlacingOutcome(ps: seq<MatchPlayer>, users: Users, d: seq<(int, int)>, n: nat, i: nat, placement: int)
    requires DistinctUsers(ps) && i < |ps| && Lookup(d, ps[i].teamNumber) == Some(placement)
    ensures var key := UserKey(ps[i]);
      var r := VisitAll(ps, users, Placing(d, n));
      (key !in users ==> r.0[i] == ps[i]) &&
      (key in users ==>
        key in r.1 &&
        r.0[i] == PlacedPlayer(ps[i], placement, n, users[key]) &&
        r.1[key] == PlacedUser(users[key], placement, n) &&
        100.0 <= r.1[key].ratingMu <= 3000.0 && r.1[key].ratingSigma >= 50.0 &&
        r.0[i].muAfter == Some(r.1[key].ratingMu) && r.0[i].sigmaAfter == Some(r.1[key].ratingSigma) &&
        r.0[i].teamPlacement == Some(placement) && r.0[i].result == Classify(placement, n) &&
        r.1[key].gamesPlayed == users[key].gamesPlayed + 1 &&
        r.1[key].wins + r.1[key].losses + r.1[key].draws == users[key].wins + users[key].losses + users[key].draws + 1)
  {
    VisitAllEach(ps, users, Placing(d, n), i);
    var key := UserKey(ps[i]);
    if key in users {
      PlacedConsistent(ps[i], users[key], placement, n);
    }
  }

  /**
   * `update_match_result`, player by player: a scored player's row gets the
   * `update_ratings` adjustment of its rating before the match, whether the
   * user exists or not; the user's row gets the same rating and one more
   * game. With positive uncertainty the winning team's players go up and
   * the others' go down, and a draw leaves mu where it was.
   */
  lemma ScoringOutcome(ps: seq<MatchPlayer>, users: Users, resultType: string, winningTeam: Option<int>, i: nat)
    requires DistinctUsers(ps) && i < |ps|
    ensures var p := ps[i];
      var key := UserKey(p);
      var r := VisitAll(ps, users, Scoring(resultType, winningTeam));
      var scored := ResultScore(resultType, winningTeam, p.teamNumber);
      var adjusted := Glicko.Adjusted(Glicko.Rating(p.muBefore, p.sigmaBefore), if scored.Some? then scored.value.0 else 0.5);
      (scored.None? ==> r.0[i] == p && (key in users ==> key in r.1 && r.1[key] == users[key])) &&
      (scored.Some? ==>
        r.0[i] == p.(muAfter := Some(adjusted.mu), sigmaAfter := Some(adjusted.sigma)) &&
        (key in users ==>
          key in r.1 && r.1[key].ratingMu == adjusted.mu && r.1[key].ratingSigma == adjusted.sigma &&
          r.1[key].gamesPlayed == users[key].gamesPlayed + 1)) &&
      (p.sigmaBefore > 0.0 && scored.Some? ==>
        (scored.value.1 == Win ==> adjusted.mu > p.muBefore) &&
        (scored.value.1 == Draw ==> adjusted.mu == p.muBefore) &&
        (scored.value.1 == Loss ==> adjusted.mu < p.muBefore))
  {
    VisitAllEach(ps, users, Scoring(resultType, winningTeam), i);
    var p := ps[i];
    var scored := ResultScore(resultType, winningTeam, p.teamNumber);
    if scored.Some? && p.sigmaBefore > 0.0 {
      Glicko.AdjustedDirection(Glicko.Rating(p.muBefore, p.sigmaBefore), scored.value.0);
    }
  }

  /** The advanced rule on a player whose team has an entry. */
  lemma AdvancingRecord(p: MatchPlayer, user: Option<User>, teams: seq<TeamData>, team: TeamData)
    requires TeamOf(teams, p.teamNumber) == Some(team)
    ensures var b := PlayerBreakdown(p, team, teams);
      Record(Advancing(teams), p, user) ==
        p.(muAfter := Some(p.muBefore + b.finalChange), sigmaAfter := Some(Glicko.SigmaAfter(p.sigmaBefore)),
          result := if team.placement == 1 then Win else Loss)
  {
  }

  /** The advanced rule on the user of a player whose team has an entry. */
  lemma AdvancingAccount(p: MatchPlayer, user: User, teams: seq<TeamData>, team: TeamData)
    requires TeamOf(teams, p.teamNumber) == Some(team)
    ensures var b := PlayerBreakdown(p, team, teams);
      var c := Account(Advancing(teams), p, user);
      c.ratingMu == p.muBefore + b.finalChange &&
      c.gamesPlayed == user.gamesPlayed + 1 &&
      (c.wins == user.wins + 1 <==> team.placement == 1) &&
      c.wins + c.losses == user.wins + user.losses + 1
  {
    var b := PlayerBreakdown(p, team, teams);
    var rated := user.(ratingMu := p.muBefore + b.finalChange, ratingSigma := Glicko.SigmaAfter(p.sigmaBefore));
    CountedOneMore(rated, if team.placement == 1 then Win else Loss);
  }

  /**
   * `apply_advanced_rating_changes`, player by player: a player of a team
   * with an entry gets its rating before the match plus the final change,
   * which for a non-negative rating is at most `min(150, 0.15 * rating)` in
   * size; the result is a win exactly at placement 1; the user's row shows
   * the same rating and one more game, counted as a win or a loss the same
   * way.
   */
  lemma AdvancingOutcome(ps: seq<MatchPlayer>, users: Users, teams: seq<TeamData>, i: nat, team: TeamData)
    requires DistinctUsers(ps) && i < |ps| && TeamOf(teams, ps[i].teamNumber) == Some(team)
    ensures var p := ps[i];
      var key := UserKey(p);
      var b := PlayerBreakdown(p, team, teams);
      var r := VisitAll(ps, users, Advancing(teams));
      r.0[i].muAfter == Some(p.muBefore + b.finalChange) &&
      r.0[i].sigmaAfter == Some(Glicko.SigmaAfter(p.sigmaBefore)) &&
      (r.0[i].result == Win <==> team.placement == 1) && r.0[i].result != Draw &&
      (p.muBefore >= 0.0 ==>
        -AdvancedRating.MinReal(150.0, 0.15 * p.muBefore) <= b.finalChange <= AdvancedRating.MinReal(150.0, 0.15 * p.muBefore)) &&
      (key in users ==>
        key in r.1 && r.1[key].ratingMu == p.muBefore + b.finalChange &&
        r.1[key].gamesPlayed == users[key].gamesPlayed + 1 &&
        (r.1[key].wins == users[key].wins + 1 <==> team.placement == 1) &&
        r.1[key].wins + r.1[key].losses == users[key].wins + users[key].losses + 1)
  {
    var p := ps[i];
    VisitAllEach(ps, users, Advancing(teams), i);
    var key := UserKey(p);
    AdvancingRecord(p, if key in users then Some(users[key]) else None, teams, team);
    if key in users {
      AdvancingAccount(p, users[key], teams, team);
    }
    if p.muBefore >= 0.0 {
      AdvancedRating.ClampBounds(p.muBefore, team.avgRating, team.placement, Opponents(teams, team.teamNumber));
    }
  }

  /** Every visited row keeps its player, team and rating before the match. */
  lemma {:induction false} VisitAllKeepsPlayers(ps: seq<MatchPlayer>, users: Users, rule: Rule)
    ensures forall i :: 0 <= i < |ps| ==>
      VisitAll(ps, users, rule).0[i].userId == ps[i].userId &&
      VisitAll(ps, users, rule).0[i].teamNumber == ps[i].teamNumber &&
      VisitAll(ps, users, rule).0[i].muBefore == ps[i].muBefore
  {
    if |ps| > 0 {
      VisitAllKeepsPlayers(ps[..|ps| - 1], users, rule);
    }
  }

  /** Visiting keeps one player per user. */
  lemma VisitAllDistinct(ps: seq<MatchPlayer>, users: Users, rule: Rule)
    requires DistinctUsers(ps)
    ensures DistinctUsers(VisitAll(ps, users, rule).0)
  {
    VisitAllKeepsPlayers(ps, users, rule);
  }

  // ---------------------------------------------------------------------------
  // The breakdowns `apply_advanced_rating_changes` returns

  /** `rating_changes`: the breakdown of every player of a team with an entry, by user id. */
  function Breakdowns(ps: seq<MatchPlayer>, teams: seq<TeamData>): map<int, AdvancedRating.Breakdown> {
    if |ps| == 0 then map[]
    else
      var changes := Breakdowns(ps[..|ps| - 1], teams);
      var p := ps[|ps| - 1];
      match TeamOf(teams, p.teamNumber)
      case None => changes
      case Some(team) => changes[p.userId := PlayerBreakdown(p, team, teams)]
  }

  /** The breakdowns are keyed by exactly the players whose team has an entry. */
  lemma {:induction false} BreakdownsKeys(ps: seq<MatchPlayer>, teams: seq<TeamData>, k: int)
    ensures k in Breakdowns(ps, teams) <==>
      exists i :: 0 <= i < |ps| && ps[i].userId == k && TeamOf(teams, ps[i].teamNumber).Some?
  {
    if |ps| > 0 {
      var n := |ps|;
      var init := ps[..n - 1];
      var p := ps[n - 1];
      var hasTeam := TeamOf(teams, p.teamNumber).Some?;
      assert Breakdowns(ps, teams).Keys == if hasTeam then Breakdowns(init, teams).Keys + {p.userId} else Breakdowns(init, teams).Keys;
      BreakdownsKeys(init, teams, k);
      if k in Breakdowns(init, teams) {
        var i :| 0 <= i < |init| && init[i].userId == k && TeamOf(teams, init[i].teamNumber).Some?;
        assert ps[i] == init[i];
      } else if exists i :: 0 <= i < n && ps[i].userId == k && TeamOf(teams, ps[i].teamNumber).Some? {
        var i :| 0 <= i < n && ps[i].userId == k && TeamOf(teams, ps[i].teamNumber).Some?;
        if i < n - 1 {
          assert init[i] == ps[i];
        }
      }
    }
  }

  /** With one player per user, each such player's breakdown is the one stored under its user id. */
  lemma {:induction false} BreakdownsEach(ps: seq<MatchPlayer>, teams: seq<TeamData>, i: nat, team: TeamData)
    requires DistinctUsers(ps) && i < |ps| && TeamOf(teams, ps[i].teamNumber) == Some(team)
    ensures ps[i].userId in Breakdowns(ps, teams)
    ensures Breakdowns(ps, teams)[ps[i].userId] == PlayerBreakdown(ps[i], team, teams)
  {
    var init := ps[..|ps| - 1];
    if i < |ps| - 1 {
      assert DistinctUsers(init);
      BreakdownsEach(init, teams, i, team);
      assert ps[|ps| - 1].userId != ps[i].userId;
    }
  }

  // ---------------------------------------------------------------------------
  // The store

  /** A match's `match_players` rows, in query order. */
  function PlayersIn(players: map<int, seq<MatchPlayer>>, matchId: int): seq<MatchPlayer> {
    if matchId in players then players[matchId] else []
  }

  /**
   * The checks `record_placement_result` makes before writing anything, in
   * order: the match exists, it is pending, and its players and the
   * submitted placements pass validation; the result is the accepted dict.
   */
  function PlacementChecks(matches: map<int, MatchRow>, ps: seq<MatchPlayer>, matchId: int, items: seq<(string, Raw)>): (r: Result<seq<(int, int)>>)
    ensures matchId !in matches ==> r == Err("Match not found")
    ensures matchId in matches && matches[matchId].status != Pending ==> r == Err("Match is not in pending status")
    ensures matchId in matches && matches[matchId].status == Pending && ValidatePlacementResult(ps, items).Err? ==>
      r == Err(ValidatePlacementResult(ps, items).message)
    ensures r.Ok? ==>
      matchId in matches && matches[matchId].status == Pending && |ps| > 0 &&
      DistinctKeys(r.value) && PlacementError(r.value, TeamNumbers(ps)).None?
    ensures (matchId in matches && matches[matchId].status == Pending && |ps| > 0 &&
      ParsePlacements(items).Ok? && PlacementError(ParsePlacements(items).value, TeamNumbers(ps)).None?) ==>
      r == ParsePlacements(items)
  {
    if matchId !in matches then Err("Match not found")
    else if matches[matchId].status != Pending then Err("Match is not in pending status")
    else ValidatePlacementResult(ps, items)
  }

  /** The `matches`, `match_players` and `users` tables the routes read and write. */
  class MatchStore {
    var matches: map<int, MatchRow>
    var players: map<int, seq<MatchPlayer>>
    var users: Users

    /** No user plays a match twice. */
    ghost predicate Valid()
      reads this
    {
      forall m :: m in players ==> DistinctUsers(players[m])
    }

    constructor (matches0: map<int, MatchRow>, players0: map<int, seq<MatchPlayer>>, users0: Users)
      requires forall m :: m in players0 ==> DistinctUsers(players0[m])
      ensures Valid()
      ensures matches == matches0 && players == players0 && users == users0
    {
      matches := matches0;
      players := players0;
      users := users0;
    }

    /** The loop over a match's players, writing into copies that a caller commits or drops. */
    static method VisitPlayers(ps: seq<MatchPlayer>, start: Users, rule: Rule) returns (visited: seq<MatchPlayer>, after: Users)
      ensures visited == VisitAll(ps, start, rule).0 && after == VisitAll(ps, start, rule).1
    {
      visited := [];
      after := start;
      var i := 0;
      while i < |ps|
        invariant 0 <= i <= |ps|
        invariant (visited, after) == VisitAll(ps[..i], start, rule)
      {
        assert ps[..i + 1][..i] == ps[..i];
        var p := ps[i];
        var key := UserKey(p);
        if key in after {
          visited := visited + [Record(rule, p, Some(after[key]))];
          after := after[key := Account(rule, p, after[key])];
        } else {
          visited := visited + [Record(rule, p, None)];
        }
        i := i + 1;
      }
      assert ps[..|ps|] == ps;
    }

    /** The breakdowns the advanced loop stores while it visits the players. */
    static method CollectBreakdowns(ps: seq<MatchPlayer>, teams: seq<TeamData>) returns (changes: map<int, AdvancedRating.Breakdown>)
      ensures changes == Breakdowns(ps, teams)
    {
      changes := map[];
      var i := 0;
      while i < |ps|
        invariant 0 <= i <= |ps|
        invariant changes == Breakdowns(ps[..i], teams)
      {
        assert ps[..i + 1][..i] == ps[..i];
        var p := ps[i];
        var team := TeamOf(teams, p.teamNumber);
        if team.Some? {
          changes := changes[p.userId := PlayerBreakdown(p, team.value, teams)];
        }
        i := i + 1;
      }
      assert ps[..|ps|] == ps;
    }

    /**
     * `record_placement_result` with the members `ResultType` has: the
     * checks in order, then the player updates, then the match row; if the
     * `PLACEMENT` member is missing the route fails and rolls everything
     * back.
     */
    method RecordPlacementResultWith(matchId: int, items: seq<(string, Raw)>, members: seq<(string, ResultType)>)
      returns (r: Result<string>)
      requires Valid()
      modifies this
      ensures Valid()
      ensures r.Err? ==> matches == old(matches) && players == old(players) && users == old(users)
      ensures var ps := PlayersIn(old(players), matchId);
        var checked := PlacementChecks(old(matches), ps, matchId, items);
        var member := MemberNamed(members, "PLACEMENT");
        (checked.Err? ==> r == Err(checked.message)) &&
        (checked.Ok? && member.None? ==> r == Err("Failed to record placement result: PLACEMENT")) &&
        (checked.Ok? && member.Some? ==>
          var placed := VisitAll(ps, old(users), Placing(checked.value, |TeamNumbers(ps)|));
          r == Ok("Placement results recorded successfully") &&
          matches == old(matches)[matchId := MatchRow(Completed, member, WinningTeam(checked.value))] &&
          players == old(players)[matchId := placed.0] && users == placed.1)
    {
      var ps := PlayersIn(players, matchId);
      var checked := PlacementChecks(matches, ps, matchId, items);
      if checked.Err? {
        return Err(checked.message);
      }
      var d := checked.value;
      var n := |TeamNumbers(ps)|;
      var visited, after := VisitPlayers(ps, users, Placing(d, n));
      var member := MemberNamed(members, "PLACEMENT");
      if member.None? {
        return Err("Failed to record placement result: PLACEMENT");
      }
      VisitAllDistinct(ps, users, Placing(d, n));
      players := players[matchId := visited];
      users := after;
      matches := matches[matchId := MatchRow(Completed, member, WinningTeam(d))];
      r := Ok("Placement results recorded successfully");
    }

    /**
     * `record_placement_result` as it is written: `ResultType` declares no
     * `PLACEMENT` member, so every submission that passes the checks ends in
     * the catch-all error and a rollback.
     */
    method RecordPlacementResultAsWritten(matchId: int, items: seq<(string, Raw)>) returns (r: Result<string>)
      requires Valid()
      modifies this
      ensures Valid()
      ensures r.Err?
      ensures matches == old(matches) && players == old(players) && users == old(users)
      ensures var checked := PlacementChecks(old(matches), PlayersIn(old(players), matchId), matchId, items);
        (checked.Err? ==> r == Err(checked.message)) &&
        (checked.Ok? ==> r == Err("Failed to record placement result: PLACEMENT"))
    {
      PlacementMemberMissing();
      r := RecordPlacementResultWith(matchId, items, DeclaredResultTypes);
    }

    /**
     * `record_placement_result` with the `PLACEMENT` member: an accepted
     * submission rewrites the match's players and their users as the
     * placement rule says, completes the match as a placement result and
     * names the team placed first as the winner.
     */
    method RecordPlacementResult(matchId: int, items: seq<(string, Raw)>) returns (r: Result<string>)
      requires Valid()
      modifies this
      ensures Valid()
      ensures r.Err? ==> matches == old(matches) && players == old(players) && users == old(users)
      ensures var ps := PlayersIn(old(players), matchId);
        var checked := PlacementChecks(old(matches), ps, matchId, items);
        (checked.Err? ==> r == Err(checked.message)) &&
        (checked.Ok? ==>
          var placed := VisitAll(ps, old(users), Placing(checked.value, |TeamNumbers(ps)|));
          r == Ok("Placement results recorded successfully") &&
          matches == old(matches)[matchId := MatchRow(Completed, Some(PlacementResult), WinningTeam(checked.value))] &&
          players == old(players)[matchId := placed.0] && users == placed.1)
    {
      PlacementMemberMissing();
      r := RecordPlacementResultWith(matchId, items, ResultTypes);
    }

    /**
     * The rating part of `update_match_result`: every player of the match
     * gets the score of its team's result, from its rating before the match;
     * the match row is written by the match service and is not part of this
     * model.
     */
    method UpdateMatchResult(matchId: int, resultType: string, winningTeam: Option<int>) returns (r: Result<string>)
      requires Valid()
      modifies this
      ensures Valid()
      ensures matches == old(matches)
      ensures matchId !in old(matches) ==> r == Err("Match not found") && players == old(players) && users == old(users)
      ensures matchId in old(matches) ==>
        var scored := VisitAll(PlayersIn(old(players), matchId), old(users), Scoring(resultType, winningTeam));
        r == Ok("Match result updated successfully") && users == scored.1 &&
        players == (if matchId in old(players) then old(players)[matchId := scored.0] else old(players))
    {
      if matchId !in matches {
        return Err("Match not found");
      }
      var ps := PlayersIn(players, matchId);
      var visited, after := VisitPlayers(ps, users, Scoring(resultType, winningTeam));
      VisitAllDistinct(ps, users, Scoring(resultType, winningTeam));
      if matchId in players {
        players := players[matchId := visited];
      }
      users := after;
      r := Ok("Match result updated successfully");
    }

    /**
     * `apply_advanced_rating_changes`: the submitted teams with players, each
     * rated against the others; every player of those teams gets the advanced
     * change, the match is completed as a placement result, and the
     * breakdowns are returned by user id.
     */
    method ApplyAdvancedRatingChanges(matchId: int, teamPlacements: seq<(int, int)>)
      returns (r: Result<map<int, AdvancedRating.Breakdown>>)
      requires Valid() && DistinctKeys(teamPlacements)
      modifies this
      ensures Valid()
      ensures matchId !in old(matches) ==> r == Err("Match " + IntToString(matchId) + " not found")
      ensures matchId in old(matches) && |PlayersIn(old(players), matchId)| == 0 ==>
        r == Err("No players found for match " + IntToString(matchId))
      ensures r.Err? ==> matches == old(matches) && players == old(players) && users == old(users)
      ensures matchId in old(matches) && |PlayersIn(old(players), matchId)| > 0 ==>
        var ps := PlayersIn(old(players), matchId);
        var teams := TeamsData(teamPlacements, ps);
        var rated := VisitAll(ps, old(users), Advancing(teams));
        r == Ok(Breakdowns(ps, teams)) &&
        players == old(players)[matchId := rated.0] && users == rated.1 &&
        matches == old(matches)[matchId := old(matches[matchId]).(status := Completed, resultType := Some(PlacementResult))]
    {
      if matchId !in matches {
        return Err("Match " + IntToString(matchId) + " not found");
      }
      var ps := PlayersIn(players, matchId);
      if |ps| == 0 {
        return Err("No players found for match " + IntToString(matchId));
      }
      var teams := TeamsData(teamPlacements, ps);
      var visited, after := VisitPlayers(ps, users, Advancing(teams));
      var changes := CollectBreakdowns(ps, teams);
      VisitAllDistinct(ps, users, Advancing(teams));
      players := players[matchId := visited];
      users := after;
      matches := matches[matchId := matches[matchId].(status := Completed, resultType := Some(PlacementResult))];
      r := Ok(changes);
    }
  }
}
