/**
 * Placement results of `api/routes/matches.py`: the rank-7 baseline rating
 * change, the checks a submitted `{team: placement}` object must pass, the
 * WIN/DRAW/LOSS classification and the per-player record updates.
 */
module Placement {

  import opened Common
  import opened Text
  import opened Records
  import Glicko

  const BaselineRank: int := 7
  const MaxRank: int := 30

  /**
   * `calculate_placement_rating_change` with its default baseline 7 and
   * maximum 30: up to +25 above the baseline, down to -40 below it.
   */
  function PlacementRatingChange(placement: int): real {
    if placement <= BaselineRank then
      if placement == BaselineRank then 0.0
      else
        var performanceScore := (BaselineRank - placement) as real / (BaselineRank - 1) as real;
        performanceScore * 25.0
    else
      if placement >= MaxRank then -40.0
      else
        var performanceScore := (placement - BaselineRank) as real / (MaxRank - BaselineRank) as real;
        -performanceScore * 40.0
  }

  /**
   * First place gains 25, the baseline 7 gains nothing, 30 and beyond lose
   * 40; in between the change is linear on each side, never increases with
   * the placement, and for placements from 1 on stays within [-40, 25].
   */
  lemma PlacementRatingChangeShape(p: int, q: int)
    requires p <= q
    ensures PlacementRatingChange(1) == 25.0 && PlacementRatingChange(7) == 0.0
    ensures p >= 30 ==> PlacementRatingChange(p) == -40.0
    ensures p < 7 ==> PlacementRatingChange(p) == (7 - p) as real / 6.0 * 25.0
    ensures 7 < p < 30 ==> PlacementRatingChange(p) == -((p - 7) as real / 23.0) * 40.0
    ensures PlacementRatingChange(p) >= PlacementRatingChange(q)
    ensures p >= 1 ==> -40.0 <= PlacementRatingChange(p) <= 25.0
    ensures (PlacementRatingChange(p) > 0.0 <==> p < 7) && (PlacementRatingChange(p) == 0.0 <==> p == 7)
  {
  }

  // ---------------------------------------------------------------------------
  // Parsing the submitted object

  /**
   * A JSON value submitted as a placement: an integer, a (finite) number
   * with a fraction together with the text Python prints for it, a boolean,
   * a string, `null`, or an array or object shown as Python prints it.
   */
  datatype Raw =
    | RawInt(i: int)
    | RawFloat(x: real, shown: string)
    | RawBool(b: bool)
    | RawText(s: string)
    | RawNull
    | RawComposite(shown: string)

  /** `int(x)` of a float: the fraction is cut off towards zero. */
  function Truncate(x: real): (n: int)
    ensures x >= 0.0 ==> n as real <= x < n as real + 1.0
    ensures x < 0.0 ==> n as real - 1.0 < x <= n as real
  {
    if x >= 0.0 then x.Floor else -((-x).Floor)
  }

  /** `int(value)`: `None` where Python raises `ValueError` or `TypeError`. */
  function RawToInt(v: Raw): Option<int> {
    match v
    case RawInt(i) => Some(i)
    case RawFloat(x, _) => Some(Truncate(x))
    case RawBool(b) => Some(if b then 1 else 0)
    case RawText(s) => ParseInt(s)
    case RawNull => None
    case RawComposite(_) => None
  }

  /** `int` accepts every number and boolean, and refuses `null`, arrays and objects. */
  lemma RawToIntCases()
    ensures RawToInt(RawFloat(2.7, "2.7")) == Some(2) && RawToInt(RawFloat(-2.7, "-2.7")) == Some(-2)
    ensures RawToInt(RawBool(true)) == Some(1) && RawToInt(RawBool(false)) == Some(0)
    ensures forall shown :: RawToInt(RawComposite(shown)).None?
    ensures RawToInt(RawNull).None?
  {
    assert Truncate(2.7) == 2;
    assert Truncate(-2.7) == -2;
  }

  /** `str(value)` inside the error message. */
  function RawString(v: Raw): string {
    match v
    case RawInt(i) => IntToString(i)
    case RawFloat(_, shown) => shown
    case RawBool(b) => if b then "True" else "False"
    case RawText(s) => s
    case RawNull => "None"
    case RawComposite(shown) => shown
  }

  predicate Parses(item: (string, Raw)) {
    ParseInt(item.0).Some? && RawToInt(item.1).Some?
  }

  predicate AllParse(items: seq<(string, Raw)>) {
    forall i :: 0 <= i < |items| ==> Parses(items[i])
  }

  function InvalidItem(item: (string, Raw)): string {
    "Invalid team number or placement: " + item.0 + " -> " + RawString(item.1)
  }

  /** The value the dict ends with for key `k`: the last item with that key wins. */
  function LastValue(items: seq<(string, Raw)>, k: int): Option<int>
    requires AllParse(items)
  {
    if |items| == 0 then None
    else
      var last := items[|items| - 1];
      assert Parses(last);
      if ParseInt(last.0).value == k then RawToInt(last.1) else LastValue(items[..|items| - 1], k)
  }

  /** `team_placements_int` once every item converts: a later duplicate key overwrites an earlier one. */
  function Collect(items: seq<(string, Raw)>): (d: seq<(int, int)>)
    requires AllParse(items)
    ensures DistinctKeys(d)
  {
    if |items| == 0 then []
    else
      var n := |items|;
      var last := items[n - 1];
      assert Parses(last);
      var init := items[..n - 1];
      assert AllParse(init) by {
        forall i | 0 <= i < |init| ensures Parses(init[i]) {
          assert init[i] == items[i];
        }
      }
      Put(Collect(init), ParseInt(last.0).value, RawToInt(last.1).value)
  }

  /**
   * The loop building `team_placements_int`: every key and value goes
   * through `int`, and the first item that does not convert is reported.
   */
  function ParsePlacements(items: seq<(string, Raw)>): (r: Result<seq<(int, int)>>)
    ensures r.Ok? <==> AllParse(items)
    ensures r.Ok? ==> DistinctKeys(r.value)
    ensures r.Err? ==> exists i :: 0 <= i < |items| && !Parses(items[i]) && r.message == InvalidItem(items[i]) &&
                                  (forall j :: 0 <= j < i ==> Parses(items[j]))
  {
    var i := FirstFailing(items, Parses);
    if i == -1 then Ok(Collect(items)) else Err(InvalidItem(items[i]))
  }

  /** After parsing, each team holds the placement of the last item naming it. */
  lemma {:induction false} CollectLookup(items: seq<(string, Raw)>, k: int)
    requires AllParse(items)
    ensures Lookup(Collect(items), k) == LastValue(items, k)
  {
    if |items| > 0 {
      var init := items[..|items| - 1];
      assert AllParse(init) by {
        forall i | 0 <= i < |init| ensures Parses(init[i]) {
          assert init[i] == items[i];
        }
      }
      CollectLookup(init, k);
    }
  }

  /** A dict that parses maps each team to the placement of the last item naming it. */
  lemma ParsePlacementsLookup(items: seq<(string, Raw)>, k: int)
    requires AllParse(items)
    ensures ParsePlacements(items).Ok? && Lookup(ParsePlacements(items).value, k) == LastValue(items, k)
  {
    CollectLookup(items, k);
  }

  // ---------------------------------------------------------------------------
  // Acceptance

  /**
   * The checks `record_placement_result` makes once the values are integers:
   * the keys are exactly the match's teams, the placements are distinct, and
   * they are 1 through the number of teams. `None` means accepted.
   */
  function PlacementError(d: seq<(int, int)>, teams: set<int>): Option<string> {
    if SetOf(Keys(d)) != teams then Some("All teams must have placements")
    else if |SetOf(Values(d))| != |Values(d)| then Some("All placements must be unique")
    else if SetOf(Values(d)) != OneTo(|teams|) then Some("Placements must be 1 through " + IntToString(|teams|))
    else None
  }

  /** A dict passes exactly when its keys are the teams, its placements are distinct and they are 1..n. */
  lemma PlacementErrorExact(d: seq<(int, int)>, teams: set<int>)
    ensures PlacementError(d, teams).None? <==>
      SetOf(Keys(d)) == teams && Distinct(Values(d)) && SetOf(Values(d)) == OneTo(|teams|)
  {
    CardBound(Values(d));
    if Distinct(Values(d)) {
      DistinctCard(Values(d));
    }
  }

  /**
   * An accepted dict has one item per team, every placement is in 1..n and
   * each of 1..n is held by some team.
   */
  lemma AcceptedCovers(d: seq<(int, int)>, teams: set<int>)
    requires DistinctKeys(d) && PlacementError(d, teams).None?
    ensures |d| == |teams|
    ensures forall i :: 0 <= i < |d| ==> 1 <= d[i].1 <= |teams|
    ensures forall p :: 1 <= p <= |teams| ==> p in Values(d)
  {
    var keys := Keys(d);
    var values := Values(d);
    assert Distinct(keys);
    DistinctCard(keys);
    forall p | 1 <= p <= |teams| ensures p in values {
      assert p in SetOf(values);
    }
    forall i | 0 <= i < |d| ensures 1 <= d[i].1 <= |teams| {
      assert values[i] in SetOf(values);
    }
  }

  /** Keys equal to the teams and values equal to 1..n already force distinct values: the uniqueness check only decides the message. */
  lemma UniqueCheckImplied(d: seq<(int, int)>, teams: set<int>)
    requires DistinctKeys(d)
    requires SetOf(Keys(d)) == teams && SetOf(Values(d)) == OneTo(|teams|)
    ensures Distinct(Values(d))
  {
    assert Distinct(Keys(d));
    DistinctCard(Keys(d));
    CardBound(Values(d));
  }

  /** The team numbers of the match's players. */
  function TeamNumbers(players: seq<MatchPlayer>): set<int> {
    set i | 0 <= i < |players| :: players[i].teamNumber
  }

  /**
   * Everything `record_placement_result` checks about the players and the
   * submitted object before it writes anything, in its order.
   */
  function ValidatePlacementResult(players: seq<MatchPlayer>, items: seq<(string, Raw)>): (r: Result<seq<(int, int)>>)
    ensures r.Ok? ==>
      |players| > 0 && DistinctKeys(r.value) &&
      PlacementError(r.value, TeamNumbers(players)).None? &&
      ParsePlacements(items) == Ok(r.value)
    ensures |players| == 0 ==> r == Err("No players found for this match")
    ensures |players| > 0 && ParsePlacements(items).Err? ==> r == Err(ParsePlacements(items).message)
    ensures (|players| > 0 && ParsePlacements(items).Ok? &&
      PlacementError(ParsePlacements(items).value, TeamNumbers(players)).Some?) ==>
      r == Err(PlacementError(ParsePlacements(items).value, TeamNumbers(players)).value)
    ensures (|players| > 0 && ParsePlacements(items).Ok? &&
      PlacementError(ParsePlacements(items).value, TeamNumbers(players)).None?) ==>
      r == ParsePlacements(items)
  {
    if |players| == 0 then Err("No players found for this match")
    else
      match ParsePlacements(items)
      case Err(m) => Err(m)
      case Ok(d) =>
        match PlacementError(d, TeamNumbers(players))
        case Some(m) => Err(m)
        case None => Ok(d)
  }

  // ---------------------------------------------------------------------------
  // Classification and updates

  /** First place wins; otherwise the top half (by `n // 2`) draws when there are more than two teams; the rest lose. */
  function Classify(placement: int, numTeams: nat): PlayerResult {
    if placement == 1 then Win
    else if placement <= numTeams / 2 then (if numTeams > 2 then Draw else Loss)
    else Loss
  }

  /**
   * Exactly placement 1 wins; a draw needs a placement other than 1 within
   * `n // 2` and more than two teams, which for a placement from 1 on means
   * at least four teams; everything else loses. The result is never
   * undecided.
   */
  lemma ClassifyShape(placement: int, numTeams: nat)
    ensures Classify(placement, numTeams) == Win <==> placement == 1
    ensures Classify(placement, numTeams) == Draw <==> placement != 1 && placement <= numTeams / 2 && numTeams > 2
    ensures Classify(placement, numTeams) == Draw && placement >= 1 ==> numTeams >= 4 && 2 <= placement <= numTeams / 2
    ensures Classify(placement, numTeams) != Undecided
  {
  }

  /** The team that placed first, in dict order: `None` when no team did. */
  function WinningTeam(d: seq<(int, int)>): (w: Option<int>)
    ensures w.Some? ==> exists i :: 0 <= i < |d| && d[i] == (w.value, 1)
    ensures w.None? <==> forall i :: 0 <= i < |d| ==> d[i].1 != 1
  {
    if |d| == 0 then None
    else if d[0].1 == 1 then
      assert d[0] == (d[0].0, 1);
      Some(d[0].0)
    else
      var w := WinningTeam(d[1..]);
      assert forall i :: 1 <= i < |d| ==> d[i] == d[1..][i - 1];
      w
  }

  /** An accepted placement dict always has a winner, and it is the one team whose placement is 1. */
  lemma WinningTeamOfAccepted(d: seq<(int, int)>, teams: set<int>)
    requires DistinctKeys(d) && PlacementError(d, teams).None? && |teams| >= 1
    ensures WinningTeam(d).Some?
    ensures Lookup(d, WinningTeam(d).value) == Some(1)
    ensures forall t :: Lookup(d, t) == Some(1) ==> t == WinningTeam(d).value
  {
    AcceptedCovers(d, teams);
    PlacementErrorExact(d, teams);
    assert 1 in Values(d);
    var i :| 0 <= i < |d| && Values(d)[i] == 1;
    assert d[i].1 == 1;
    var w := WinningTeam(d).value;
    var j :| 0 <= j < |d| && d[j] == (w, 1);
    LookupAt(d, j);
    forall t | Lookup(d, t) == Some(1) ensures t == w {
      OnlyOneFirst(d, IndexOfKey(d, t), j);
    }
  }

  /** With distinct placements, two items both placed first are the same item. */
  lemma OnlyOneFirst(d: seq<(int, int)>, k: int, j: int)
    requires Distinct(Values(d))
    requires 0 <= k < |d| && 0 <= j < |d| && d[k].1 == 1 && d[j].1 == 1
    ensures k == j
  {
    var values := Values(d);
    assert values[k] == values[j];
  }

  /** `max(100, min(3000, old_mu + change))`. */
  function NewMu(oldMu: real, change: real): real {
    var capped := if 3000.0 <= oldMu + change then 3000.0 else oldMu + change;
    if 100.0 >= capped then 100.0 else capped
  }

  /** The new mu stays within [100, 3000] and is the plain sum whenever that is. */
  lemma NewMuBounds(oldMu: real, change: real)
    ensures 100.0 <= NewMu(oldMu, change) <= 3000.0
    ensures 100.0 <= oldMu + change <= 3000.0 ==> NewMu(oldMu, change) == oldMu + change
    ensures oldMu + change < 100.0 ==> NewMu(oldMu, change) == 100.0
    ensures oldMu + change > 3000.0 ==> NewMu(oldMu, change) == 3000.0
  {
  }

  /** The player record after its team received `placement` among `numTeams`, from the user's current rating. */
  function PlacedPlayer(p: MatchPlayer, placement: int, numTeams: nat, user: User): MatchPlayer {
    p.(teamPlacement := Some(placement),
      muAfter := Some(NewMu(user.ratingMu, PlacementRatingChange(placement))),
      sigmaAfter := Some(Glicko.SigmaAfter(user.ratingSigma)),
      result := Classify(placement, numTeams))
  }

  /** The user after one placement: the clamped rating, the reduced uncertainty, and the game counted. */
  function PlacedUser(user: User, placement: int, numTeams: nat): User {
    var rated := user.(ratingMu := NewMu(user.ratingMu, PlacementRatingChange(placement)),
      ratingSigma := Glicko.SigmaAfter(user.ratingSigma));
    Counted(rated, Classify(placement, numTeams))
  }

  /**
   * After a placement, the user's rating lies in [100, 3000], the
   * uncertainty is at least 50, one game and exactly one win, loss or draw
   * are added, and the player record shows what the user now has.
   */
  lemma PlacedConsistent(p: MatchPlayer, user: User, placement: int, numTeams: nat)
    ensures var u := PlacedUser(user, placement, numTeams);
      var q := PlacedPlayer(p, placement, numTeams, user);
      100.0 <= u.ratingMu <= 3000.0 && u.ratingSigma >= 50.0 &&
      u.gamesPlayed == user.gamesPlayed + 1 &&
      u.wins + u.losses + u.draws == user.wins + user.losses + user.draws + 1 &&
      (u.wins == user.wins + 1 <==> placement == 1) &&
      q.muAfter == Some(u.ratingMu) && q.sigmaAfter == Some(u.ratingSigma) &&
      q.teamPlacement == Some(placement) && q.userId == p.userId && q.teamNumber == p.teamNumber
  {
    NewMuBounds(user.ratingMu, PlacementRatingChange(placement));
    Glicko.SigmaAfterShape(user.ratingSigma);
    ClassifyShape(placement, numTeams);
    var rated := user.(ratingMu := NewMu(user.ratingMu, PlacementRatingChange(placement)),
      ratingSigma := Glicko.SigmaAfter(user.ratingSigma));
    CountedOneMore(rated, Classify(placement, numTeams));
  }
}
