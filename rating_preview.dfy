/**
 * The team simulation behind the `/rating_preview` command: waiting players
 * are sorted by rating and dealt into three teams in snake order, and the
 * target player's team average is set against the other two.
 */
module RatingPreview {

  import opened Common
  import opened Constants
  import opened Sorting
  import opened TeamBalancer

  /** A waiting-room member and the rating looked up for them (`None` when the lookup failed). */
  datatype Waiting = Waiting(memberId: int, ratingMu: Option<real>)

  /** `player_ratings[member.id]`: the looked-up rating, or 1500 by default. */
  function RatingOf(m: Waiting): real {
    m.ratingMu.GetOr(DefaultRatingMu)
  }

  datatype Preview = Preview(
    teams: seq<seq<Waiting>>,
    userTeamIndex: nat,
    teamAverages: seq<real>,
    userTeamAvg: real,
    opponentAvgs: seq<real>)

  /** The closed-form three-team index computed for the `i`-th player in rating order. */
  function PreviewTeamIndex(i: nat): nat {
    if (i / 3) % 2 == 0 then i % 3 else 2 - i % 3
  }

  /** The closed form always names one of the three teams, and it is the snake order of the team balancer. */
  lemma PreviewTeamIndexIsSnake(i: nat)
    ensures PreviewTeamIndex(i) < 3
    ensures PreviewTeamIndex(i) == SnakeIndex(i, 3)
  {
    SnakeClosedForm(i, 3);
    PassPosValue(i, 3);
  }

  predicate HasMember(team: seq<Waiting>, id: int) {
    exists j :: 0 <= j < |team| && team[j].memberId == id
  }

  /** A team's average simulated rating, 1500 for an empty team. */
  function TeamAverage(team: seq<Waiting>): real {
    if |team| == 0 then DefaultRatingMu
    else Mean(seq(|team|, j requires 0 <= j < |team| => RatingOf(team[j])))
  }

  /** Every entry but the one at `u`, in order. */
  function Without<T>(s: seq<T>, u: nat): (r: seq<T>)
    requires u < |s|
    ensures |r| == |s| - 1
    ensures forall j :: 0 <= j < |r| ==> r[j] == if j < u then s[j] else s[j + 1]
  {
    s[..u] + s[u + 1..]
  }

  /** The three simulated teams. */
  function PreviewTeams(members: seq<Waiting>): (teams: seq<seq<Waiting>>)
    ensures |teams| == 3
  {
    Deal(SortDesc(members, RatingOf), 3)
  }

  /** Every waiting member sits in exactly one simulated team. */
  lemma PreviewTeamsPermutation(members: seq<Waiting>)
    ensures multiset(Flatten(PreviewTeams(members))) == multiset(members)
  {
    DealPermutation(SortDesc(members, RatingOf), 3);
  }

  /** The target is found in a simulated team exactly when they are in the waiting room. */
  lemma FoundIffWaiting(members: seq<Waiting>, id: int)
    ensures (exists t :: 0 <= t < 3 && HasMember(PreviewTeams(members)[t], id)) <==>
      exists j :: 0 <= j < |members| && members[j].memberId == id
  {
    var teams := PreviewTeams(members);
    PreviewTeamsPermutation(members);
    if exists t :: 0 <= t < 3 && HasMember(teams[t], id) {
      var t :| 0 <= t < 3 && HasMember(teams[t], id);
      var j :| 0 <= j < |teams[t]| && teams[t][j].memberId == id;
      InFlatten(teams, teams[t][j]);
      assert teams[t][j] in multiset(members);
      var k :| 0 <= k < |members| && members[k] == teams[t][j];
    }
    if exists j :: 0 <= j < |members| && members[j].memberId == id {
      var j :| 0 <= j < |members| && members[j].memberId == id;
      assert members[j] in multiset(Flatten(teams));
      InFlatten(teams, members[j]);
      var t :| 0 <= t < |teams| && members[j] in teams[t];
      var k :| 0 <= k < |teams[t]| && teams[t][k] == members[j];
      assert HasMember(teams[t], id);
    }
  }

  /** Deals the sorted waiting players into three teams with the closed-form index. */
  method DealThreeTeams(members: seq<Waiting>) returns (teams: seq<seq<Waiting>>)
    ensures teams == PreviewTeams(members)
  {
    var sortedPlayers := SortDesc(members, RatingOf);
    teams := EmptyTeams(3);
    for i := 0 to |sortedPlayers|
      invariant Dealt(teams, sortedPlayers, i, 3)
    {
      var teamIndex := if (i / 3) % 2 == 0 then i % 3 else 2 - i % 3;
      PreviewTeamIndexIsSnake(i);
      DealtStep(teams, sortedPlayers, i, 3);
      teams := teams[teamIndex := teams[teamIndex] + [sortedPlayers[i]]];
    }
    DealtAll(teams, sortedPlayers, 3);
  }

  /** The first team holding the target, or -1. */
  method FindUserTeam(teams: seq<seq<Waiting>>, targetId: int) returns (u: int)
    ensures -1 <= u < |teams|
    ensures u >= 0 ==> HasMember(teams[u], targetId) && forall t :: 0 <= t < u ==> !HasMember(teams[t], targetId)
    ensures u == -1 ==> forall t :: 0 <= t < |teams| ==> !HasMember(teams[t], targetId)
  {
    u := -1;
    var i := 0;
    while i < |teams|
      invariant 0 <= i <= |teams|
      invariant forall t :: 0 <= t < i ==> !HasMember(teams[t], targetId)
    {
      if HasMember(teams[i], targetId) {
        return i;
      }
      i := i + 1;
    }
  }

  /** Every team's average, in team order. */
  method TeamAverages(teams: seq<seq<Waiting>>) returns (averages: seq<real>)
    ensures averages == seq(|teams|, t requires 0 <= t < |teams| => TeamAverage(teams[t]))
  {
    averages := [];
    for t := 0 to |teams|
      invariant averages == seq(t, v requires 0 <= v < t => TeamAverage(teams[v]))
    {
      averages := averages + [TeamAverage(teams[t])];
    }
  }

  /** The other teams' averages, in team order. */
  method OpponentAverages(averages: seq<real>, u: nat) returns (opponents: seq<real>)
    requires u < |averages|
    ensures opponents == Without(averages, u)
  {
    opponents := [];
    for t := 0 to |averages|
      invariant opponents == if t <= u then averages[..t] else Without(averages[..t], u)
    {
      if t != u {
        opponents := opponents + [averages[t]];
      }
    }
    assert averages[..|averages|] == averages;
  }

  /**
   * The simulation part of `rating_preview` (the preview itself is computed by
   * the rating service). Fewer than three waiting players is an error, and so
   * is a target who is not waiting.
   */
  method SimulatePreview(members: seq<Waiting>, targetId: int) returns (r: Result<Preview>)
    ensures |members| < 3 ==> r.Err?
    ensures |members| >= 3 ==> (r.Ok? <==> exists j :: 0 <= j < |members| && members[j].memberId == targetId)
    ensures r.Ok? ==>
      var p := r.value;
      p.teams == PreviewTeams(members) &&
      p.userTeamIndex < 3 && HasMember(p.teams[p.userTeamIndex], targetId) &&
      (forall t :: 0 <= t < p.userTeamIndex ==> !HasMember(p.teams[t], targetId)) &&
      p.teamAverages == seq(3, t requires 0 <= t < 3 => TeamAverage(p.teams[t])) &&
      p.userTeamAvg == p.teamAverages[p.userTeamIndex] &&
      p.opponentAvgs == Without(p.teamAverages, p.userTeamIndex)
  {
    if |members| < 3 {
      return Err("Not Enough Players");
    }
    var teams := DealThreeTeams(members);
    var u := FindUserTeam(teams, targetId);
    FoundIffWaiting(members, targetId);
    if u == -1 {
      return Err("User Not in Waiting Room");
    }
    var teamAverages := TeamAverages(teams);
    var opponentAvgs := OpponentAverages(teamAverages, u);
    r := Ok(Preview(teams, u, teamAverages, teamAverages[u], opponentAvgs));
  }
}
