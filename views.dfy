/**
 * The result dialogues of the bot (`bot/utils/views.py`): the win/loss/draw
 * dialogue and its validation, the placement dialogue with its input
 * modal, and the paginated view.  Discord widgets are left out; what is
 * kept is the state each view holds and the rules it applies to it.
 */
module Views {

  import opened Common
  import opened Text
  import Placement
  import OpenSkill

  /** The value a team's dropdown can hold: `"win"`, `"loss"` or `"draw"`. */
  datatype Selection = Win | Loss | Draw

  // ---------------------------------------------------------------------------
  // Counting selections

  /** `sum(1 for result in team_results.values() if result == s)`. */
  function CountOf(results: seq<(int, Selection)>, s: Selection): nat {
    if |results| == 0 then 0
    else CountOf(results[..|results| - 1], s) + (if results[|results| - 1].1 == s then 1 else 0)
  }

  predicate AllAre(results: seq<(int, Selection)>, s: Selection) {
    forall i :: 0 <= i < |results| ==> results[i].1 == s
  }

  /** Every selection is one of the three, so the counts add up; a count is full exactly when all agree, and zero exactly when none does. */
  lemma {:induction false} CountsAddUp(results: seq<(int, Selection)>, s: Selection)
    ensures CountOf(results, Win) + CountOf(results, Loss) + CountOf(results, Draw) == |results|
    ensures CountOf(results, s) == |results| <==> AllAre(results, s)
    ensures CountOf(results, s) == 0 <==> forall i :: 0 <= i < |results| ==> results[i].1 != s
    ensures CountOf(results, s) <= |results|
  {
    if |results| > 0 {
      var init := results[..|results| - 1];
      CountsAddUp(init, s);
      assert forall i :: 0 <= i < |init| ==> init[i] == results[i];
    }
  }

  // ---------------------------------------------------------------------------
  // Win/loss/draw validation

  /** Why a set of results is refused; `ResultsMessage` gives the text the dialogue shows. */
  datatype ResultsProblem = Incomplete | PartialDraw | SmallMatchMix | NotOneWinner | NonWinnerNotLost

  function ResultsMessage(p: ResultsProblem): string {
    match p
    case Incomplete => "Please select a result for all teams."
    case PartialDraw => "If it's a draw, all teams must be marked as 'Draw'."
    case SmallMatchMix => "For small matches: either one team wins (others lose) OR all teams lose (forfeit/incomplete)."
    case NotOneWinner => "Exactly one team must be marked as 'Win' (others as 'Loss')."
    case NonWinnerNotLost => "All non-winning teams must be marked as 'Loss'."
  }

  /** `(True, "")` without a problem, `(False, message)` with one. */
  function Verdict(problem: Option<ResultsProblem>): (bool, string) {
    if problem.None? then (true, "") else (false, ResultsMessage(problem.value))
  }

  /** The rules `MatchResultView.validate_results` applies, in order. */
  function ResultsProblemOf(results: seq<(int, Selection)>, teamCount: nat): Option<ResultsProblem> {
    if |results| != teamCount then Some(Incomplete)
    else
      var wins := CountOf(results, Win);
      var losses := CountOf(results, Loss);
      var draws := CountOf(results, Draw);
      if draws > 0 then
        if draws != teamCount then Some(PartialDraw) else None
      else if teamCount < 3 then
        if wins == 0 && losses == teamCount then None
        else if wins == 1 && losses == teamCount - 1 then None
        else Some(SmallMatchMix)
      else if wins != 1 then Some(NotOneWinner)
      else if losses != teamCount - 1 then Some(NonWinnerNotLost)
      else None
  }

  /** `MatchResultView.validate_results`. */
  function ValidateResults(results: seq<(int, Selection)>, teamCount: nat): (bool, string) {
    Verdict(ResultsProblemOf(results, teamCount))
  }

  /** One team won and every other team lost. */
  predicate OneWinner(results: seq<(int, Selection)>) {
    CountOf(results, Win) == 1 && CountOf(results, Loss) == |results| - 1
  }

  /**
   * A result set is accepted exactly when every team has a result and it
   * is an all-draw, a single winner over losers, or, with fewer than three
   * teams, all losses.  Accepted sets carry no message, rejected ones the
   * message of the first rule they break.
   */
  lemma ValidResults(results: seq<(int, Selection)>, teamCount: nat)
    ensures var (ok, message) := ValidateResults(results, teamCount);
      (ok <==>
        |results| == teamCount &&
        ((teamCount > 0 && AllAre(results, Draw)) || OneWinner(results) || (teamCount < 3 && AllAre(results, Loss)))) &&
      (ok ==> message == "") &&
      (!ok ==> message == ResultsMessage(ResultsProblemOf(results, teamCount).value))
  {
    CountsAddUp(results, Win);
    CountsAddUp(results, Loss);
    CountsAddUp(results, Draw);
  }

  /** `validate_results` in `test_result_validation.py`: always exactly one winner unless all draw. */
  function StrictProblemOf(results: seq<(int, Selection)>, teamCount: nat): Option<ResultsProblem> {
    if |results| != teamCount then Some(Incomplete)
    else
      var wins := CountOf(results, Win);
      var losses := CountOf(results, Loss);
      var draws := CountOf(results, Draw);
      if draws > 0 then
        if draws != teamCount then Some(PartialDraw) else None
      else if wins != 1 then Some(NotOneWinner)
      else if losses != teamCount - 1 then Some(NonWinnerNotLost)
      else None
  }

  function ValidateResultsStrict(results: seq<(int, Selection)>, teamCount: nat): (bool, string) {
    Verdict(StrictProblemOf(results, teamCount))
  }

  /**
   * Whatever the test copy accepts the view accepts too; the view accepts
   * more exactly on all-loss results of fewer than three teams, and where
   * both refuse with three teams or more they give the same message.
   */
  lemma StrictAgreement(results: seq<(int, Selection)>, teamCount: nat)
    ensures ValidateResultsStrict(results, teamCount).0 ==> ValidateResults(results, teamCount).0
    ensures ValidateResults(results, teamCount).0 && !ValidateResultsStrict(results, teamCount).0 <==>
      |results| == teamCount && teamCount < 3 && AllAre(results, Loss)
    ensures teamCount >= 3 ==> ResultsProblemOf(results, teamCount) == StrictProblemOf(results, teamCount)
  {
    CountsAddUp(results, Win);
    CountsAddUp(results, Loss);
    CountsAddUp(results, Draw);
  }

  /** The valid cases listed in `test_result_validation.py`. */
  lemma StrictValidCases()
    ensures StrictProblemOf([(1, Win), (2, Loss), (3, Loss)], 3).None?
    ensures StrictProblemOf([(1, Draw), (2, Draw), (3, Draw)], 3).None?
    ensures StrictProblemOf([(1, Win), (2, Loss)], 2).None?
    ensures StrictProblemOf([(1, Draw), (2, Draw)], 2).None?
  {
    CountOfThree((1, Win), (2, Loss), (3, Loss));
    CountOfThree((1, Draw), (2, Draw), (3, Draw));
    CountOfTwo((1, Win), (2, Loss));
    CountOfTwo((1, Draw), (2, Draw));
  }

  /** The invalid cases listed in `test_result_validation.py`, each refused for the reason the rules give. */
  lemma StrictInvalidCases()
    ensures StrictProblemOf([(1, Win), (2, Win), (3, Loss)], 3) == Some(NotOneWinner)
    ensures StrictProblemOf([(1, Loss), (2, Loss), (3, Loss)], 3) == Some(NotOneWinner)
    ensures StrictProblemOf([(1, Draw), (2, Loss), (3, Loss)], 3) == Some(PartialDraw)
    ensures StrictProblemOf([(1, Win), (2, Draw), (3, Loss)], 3) == Some(PartialDraw)
    ensures StrictProblemOf([(1, Win), (2, Loss)], 3) == Some(Incomplete)
    ensures StrictProblemOf([], 3) == Some(Incomplete)
  {
    CountOfThree((1, Win), (2, Win), (3, Loss));
    CountOfThree((1, Loss), (2, Loss), (3, Loss));
    CountOfThree((1, Draw), (2, Loss), (3, Loss));
    CountOfThree((1, Win), (2, Draw), (3, Loss));
  }

  function Indicator(item: (int, Selection), s: Selection): nat {
    if item.1 == s then 1 else 0
  }

  lemma CountOfTwo(x: (int, Selection), y: (int, Selection))
    ensures forall s :: CountOf([x, y], s) == Indicator(x, s) + Indicator(y, s)
  {
    assert [x, y][..1] == [x];
    assert [x][..0] == [];
    forall s ensures CountOf([x, y], s) == Indicator(x, s) + Indicator(y, s) {
      assert CountOf([x], s) == CountOf([], s) + Indicator(x, s);
    }
  }

  lemma CountOfThree(x: (int, Selection), y: (int, Selection), z: (int, Selection))
    ensures forall s :: CountOf([x, y, z], s) == Indicator(x, s) + Indicator(y, s) + Indicator(z, s)
  {
    assert [x, y, z][..2] == [x, y];
    CountOfTwo(x, y);
  }

  // ---------------------------------------------------------------------------
  // Submitted result type

  function NotWin(item: (int, Selection)): bool {
    item.1 != Win
  }

  /**
   * The result type `submit_results` sends: `"draw"` when any team drew,
   * else `"forfeit"` without a winner, else `"win_loss"` with the first
   * team marked as winning.
   */
  function ChooseResultType(results: seq<(int, Selection)>): (string, Option<int>) {
    if CountOf(results, Draw) > 0 then ("draw", None)
    else if CountOf(results, Win) == 0 then ("forfeit", None)
    else
      var i := FirstFailing(results, NotWin);
      ("win_loss", if i >= 0 then Some(results[i].0) else None)
  }

  /**
   * For accepted results: a draw exactly when all teams drew, a forfeit
   * exactly when a match of fewer than three teams was all losses, and
   * otherwise a win/loss naming the one team that won.
   */
  lemma ChosenResultType(results: seq<(int, Selection)>, teamCount: nat)
    requires ValidateResults(results, teamCount).0
    ensures var (resultType, winner) := ChooseResultType(results);
      (resultType == "draw" <==> teamCount > 0 && AllAre(results, Draw)) &&
      (resultType == "forfeit" <==> teamCount < 3 && AllAre(results, Loss) && winner.None?) &&
      (resultType == "win_loss" ==>
        winner.Some? && OneWinner(results) &&
        exists i :: 0 <= i < |results| && results[i] == (winner.value, Win) &&
          forall j :: 0 <= j < |results| && j != i ==> results[j].1 == Loss)
  {
    ValidResults(results, teamCount);
    CountsAddUp(results, Win);
    CountsAddUp(results, Loss);
    CountsAddUp(results, Draw);
    var (resultType, winner) := ChooseResultType(results);
    if resultType == "win_loss" {
      var i := FirstFailing(results, NotWin);
      assert results[i].1 == Win;
      forall j | 0 <= j < |results| && j != i ensures results[j].1 == Loss {
        if results[j].1 == Win {
          TwoWins(results, i, j);
        }
      }
    }
  }

  lemma TwoWins(results: seq<(int, Selection)>, i: nat, j: nat)
    requires i < |results| && j < |results| && i != j
    requires results[i].1 == Win && results[j].1 == Win
    ensures CountOf(results, Win) >= 2
  {
    var keep := results[..i] + results[i + 1..];
    assert keep[if j < i then j else j - 1] == results[j];
    CountWithout(results, i);
    CountsAddUp(keep, Win);
  }

  /** Taking out entry `i` lowers the count of its selection by one. */
  lemma {:induction false} CountWithout(results: seq<(int, Selection)>, i: nat)
    requires i < |results|
    ensures CountOf(results, results[i].1) == CountOf(results[..i] + results[i + 1..], results[i].1) + 1
  {
    var s := results[i].1;
    var last := |results| - 1;
    if i < last {
      var init := results[..last];
      CountWithout(init, i);
      assert init[i] == results[i];
      assert (results[..i] + results[i + 1..])[..last - 1] == init[..i] + init[i + 1..];
      assert (results[..i] + results[i + 1..])[last - 1] == results[last];
    } else {
      assert results[..i] + results[i + 1..] == results[..last];
    }
  }

  // ---------------------------------------------------------------------------
  // Dialogue state shared by both result views

  /** Every key is a team number of the dialogue: `1..teamCount`. */
  ghost predicate KeysWithin<V>(d: seq<(int, V)>, teamCount: nat) {
    forall k :: Lookup(d, k).Some? ==> 1 <= k <= teamCount
  }

  /** A dict keyed by team numbers of the dialogue has at most one entry per team. */
  lemma EntriesAtMost<V>(d: seq<(int, V)>, teamCount: nat)
    requires DistinctKeys(d) && KeysWithin(d, teamCount)
    ensures |d| <= teamCount
  {
    var keys := Keys(d);
    assert Distinct(keys);
    DistinctCard(keys);
    forall k | k in SetOf(keys) ensures k in OneTo(teamCount) {
      var i :| 0 <= i < |d| && keys[i] == k;
      LookupAt(d, i);
    }
    SubsetCard(SetOf(keys), OneTo(teamCount));
  }

  /**
   * Recording a team's entry keeps one entry per team and the keys within
   * the dialogue's teams; once every team has one, the entry count is the
   * team count and stays there.
   */
  lemma PutWithin<V>(d: seq<(int, V)>, teamCount: nat, teamNumber: int, v: V)
    requires DistinctKeys(d) && KeysWithin(d, teamCount)
    requires 1 <= teamNumber <= teamCount
    ensures var r := Put(d, teamNumber, v);
      DistinctKeys(r) && KeysWithin(r, teamCount) && |r| <= teamCount &&
      (|d| == teamCount ==> |r| == teamCount)
  {
    var r := Put(d, teamNumber, v);
    assert KeysWithin(r, teamCount) by {
      forall k | Lookup(r, k).Some? ensures 1 <= k <= teamCount {
        if k != teamNumber {
          assert Lookup(r, k) == Lookup(d, k);
        }
      }
    }
    EntriesAtMost(r, teamCount);
  }

  /** `MatchResultView`: one dropdown per team and a submit button enabled once all are set. */
  class MatchResultView {
    const teamCount: nat
    var teamResults: seq<(int, Selection)>
    var submitEnabled: bool

    ghost predicate Valid()
      reads this
    {
      DistinctKeys(teamResults) && KeysWithin(teamResults, teamCount) &&
      (submitEnabled <==> 0 < |teamResults| == teamCount)
    }

    /** A dialogue for at least one team, with no result chosen and submit disabled. */
    constructor(teamCount: nat)
      ensures this.teamCount == teamCount && teamResults == [] && !submitEnabled
      ensures Valid()
    {
      this.teamCount := teamCount;
      teamResults := [];
      submitEnabled := false;
    }

    /** `update_team_result`: overwrite one team's entry and enable submit once every team has one. */
    method UpdateTeamResult(teamNumber: int, result: Selection)
      requires Valid() && 1 <= teamNumber <= teamCount
      modifies this
      ensures Valid()
      ensures teamResults == Put(old(teamResults), teamNumber, result)
      ensures submitEnabled == (old(submitEnabled) || |teamResults| == teamCount)
    {
      PutWithin(teamResults, teamCount, teamNumber, result);
      teamResults := Put(teamResults, teamNumber, result);
      if |teamResults| == teamCount {
        submitEnabled := true;
      }
    }

    /** `validate_results` on the dialogue's state. */
    function Validate(): (bool, string)
      reads this
    {
      ValidateResults(teamResults, teamCount)
    }
  }

  // ---------------------------------------------------------------------------
  // Placement validation

  /** Why a set of placements is refused; `PlacementMessage` gives the text the dialogue shows. */
  datatype PlacementProblem = Unset | BelowOne | AboveThirty | Tied | NotOneToTeamCount

  function PlacementMessage(p: PlacementProblem, teamCount: nat): string {
    match p
    case Unset => "Please set placement for all teams."
    case BelowOne => "Placements must be 1 or higher."
    case AboveThirty => "Maximum supported placement is 30."
    case Tied => "Each team must have a unique placement (no ties)."
    case NotOneToTeamCount =>
      "For guild-only matches, must use placements 1 through " + IntToString(teamCount) + " exactly once each."
  }

  /**
   * The rules `PlacementResultView.validate_placements` applies, in order.
   * `Err` where `min()` of no placements raises, which a dialogue with no
   * teams reaches.
   */
  function PlacementProblemOf(d: seq<(int, int)>, teamCount: nat): Result<Option<PlacementProblem>> {
    if |d| != teamCount then Ok(Some(Unset))
    else if |d| == 0 then Err("min() arg is an empty sequence")
    else
      var placements := Values(d);
      if MinOf(placements) < 1 then Ok(Some(BelowOne))
      else if MaxOf(placements) > 30 then Ok(Some(AboveThirty))
      else if MaxOf(placements) <= teamCount then
        if |SetOf(placements)| != |placements| then Ok(Some(Tied))
        else if SetOf(placements) != OneTo(teamCount) then Ok(Some(NotOneToTeamCount))
        else Ok(None)
      else if |SetOf(placements)| != |placements| then Ok(Some(Tied))
      else Ok(None)
  }

  /** `PlacementResultView.validate_placements`. */
  function ValidatePlacements(d: seq<(int, int)>, teamCount: nat): Result<(bool, string)> {
    match PlacementProblemOf(d, teamCount)
    case Err(message) => Err(message)
    case Ok(None) => Ok((true, ""))
    case Ok(Some(p)) => Ok((false, PlacementMessage(p, teamCount)))
  }

  /** Every placement lies in 1..30 exactly when the smallest and largest do. */
  lemma RangeByExtremes(d: seq<(int, int)>)
    requires |d| > 0
    ensures (forall i :: 0 <= i < |d| ==> 1 <= d[i].1 <= 30) <==> MinOf(Values(d)) >= 1 && MaxOf(Values(d)) <= 30
  {
    var placements := Values(d);
    assert forall i :: 0 <= i < |d| ==> placements[i] in placements;
  }

  /** `len(set(placements)) != len(placements)` is a tie. */
  lemma DistinctByCard(xs: seq<int>)
    ensures Distinct(xs) <==> |SetOf(xs)| == |xs|
  {
    CardBound(xs);
    if Distinct(xs) {
      DistinctCard(xs);
    }
  }

  /** `n` distinct placements from 1 to at most `n` are exactly `1..n`. */
  lemma GuildOnlyComplete(xs: seq<int>, n: nat)
    requires |xs| == n > 0 && Distinct(xs)
    requires MinOf(xs) >= 1 && MaxOf(xs) <= n
    ensures SetOf(xs) == OneTo(n)
  {
    DistinctCard(xs);
    assert SetOf(xs) <= OneTo(n);
    SubsetSameSize(SetOf(xs), OneTo(n));
  }

  /**
   * Placements are accepted exactly when every team has one, each is in
   * 1..30 and no two teams share one: with no more than `teamCount` as
   * the largest, distinct placements from 1 on are already `1..teamCount`,
   * so the guild-only message is never given.
   */
  lemma ValidPlacements(d: seq<(int, int)>, teamCount: nat)
    ensures ValidatePlacements(d, teamCount).Err? <==> |d| == teamCount == 0
    ensures ValidatePlacements(d, teamCount) == Ok((true, "")) <==>
      |d| == teamCount > 0 && Distinct(Values(d)) && forall i :: 0 <= i < |d| ==> 1 <= d[i].1 <= 30
    ensures PlacementProblemOf(d, teamCount) != Ok(Some(NotOneToTeamCount))
  {
    if |d| == teamCount > 0 {
      var placements := Values(d);
      DistinctByCard(placements);
      RangeByExtremes(d);
      if MinOf(placements) >= 1 && MaxOf(placements) <= teamCount && Distinct(placements) {
        GuildOnlyComplete(placements, teamCount);
      }
    }
  }

  /** Placements the dialogue accepts never make a "mixed" field for the OpenSkill service. */
  lemma AcceptedPlacementsField(d: seq<(int, int)>, teamCount: nat)
    requires ValidatePlacements(d, teamCount).Ok? && ValidatePlacements(d, teamCount).value.0
    ensures OpenSkill.DetectCompetitionType(d).Some?
    ensures OpenSkill.DetectCompetitionType(d).value.kind != OpenSkill.Mixed
    ensures OpenSkill.DetectCompetitionType(d).value.externalTeams >= 0
  {
    ValidPlacements(d, teamCount);
    OpenSkill.ValidatedField(d);
  }

  /** `calculate_rating_change`, the dialogue's preview of the rating change a placement brings. */
  function PreviewRatingChange(placement: int): real {
    var baselineRank := 7;
    var maxRank := 30;
    if placement <= baselineRank then
      if placement == baselineRank then 0.0
      else
        var performanceScore := (baselineRank - placement) as real / (baselineRank - 1) as real;
        performanceScore * 25.0
    else
      if placement >= maxRank then -40.0
      else
        var performanceScore := (placement - baselineRank) as real / (maxRank - baselineRank) as real;
        -performanceScore * 40.0
  }

  /** The preview agrees with the change the placement route records, for every placement. */
  lemma PreviewAgreesWithRoute(placement: int)
    ensures PreviewRatingChange(placement) == Placement.PlacementRatingChange(placement)
  {
  }

  // ---------------------------------------------------------------------------
  // Placement input

  /** Team `team` may not take `placement` while `item`, another team's entry, holds it. */
  function NoClash(placement: int, team: int): ((int, int)) -> bool {
    (item: (int, int)) => !(item.1 == placement && item.0 != team)
  }

  /** The scan over the stored placements in `on_submit`: the first other team already holding `placement`, or -1. */
  method FindClash(d: seq<(int, int)>, placement: int, team: int) returns (i: int)
    ensures i == FirstFailing(d, NoClash(placement, team))
  {
    i := 0;
    while i < |d|
      invariant 0 <= i <= |d|
      invariant forall j :: 0 <= j < i ==> NoClash(placement, team)(d[j])
    {
      var (teamNum, existing) := d[i];
      if existing == placement && teamNum != team {
        return;
      }
      i := i + 1;
    }
    i := -1;
  }

  /**
   * What `PlacementInputModal.on_submit` stores for `team` given the typed
   * text: the parsed placement with anything above 30 taken as 30, or the
   * message it answers with.  A placement within the number of teams is
   * refused when another team already holds it.
   */
  function PlacementEntry(d: seq<(int, int)>, teamCount: nat, team: int, text: string): Result<int> {
    var parsed := ParseInt(text);
    if parsed.None? then Err("❌ Please enter a valid number for placement")
    else if parsed.value < 1 then Err("❌ Placement must be 1 or higher (1 = 1st place)")
    else
      var placement := if parsed.value > 30 then 30 else parsed.value;
      var i := if placement <= teamCount then FirstFailing(d, NoClash(placement, team)) else -1;
      if i >= 0 then
        Err("❌ Placement " + IntToString(placement) + " is already assigned to Team " + IntToString(d[i].0))
      else Ok(placement)
  }

  /**
   * An accepted entry lies in 1..30, is the typed number capped at 30, and,
   * when within the number of teams, is held by no other team; a refused
   * one was unparsable, below 1, or taken.
   */
  lemma EntryMeaning(d: seq<(int, int)>, teamCount: nat, team: int, text: string)
    ensures var e := PlacementEntry(d, teamCount, team, text);
      (e.Ok? ==>
        ParseInt(text).Some? && 1 <= e.value <= 30 &&
        e.value == (if ParseInt(text).value > 30 then 30 else ParseInt(text).value) &&
        (e.value <= teamCount ==> forall i :: 0 <= i < |d| && d[i].0 != team ==> d[i].1 != e.value)) &&
      (e.Err? <==>
        ParseInt(text).None? || ParseInt(text).value < 1 ||
        exists i :: 0 <= i < |d| && d[i].0 != team && d[i].1 == CappedPlacement(text) && CappedPlacement(text) <= teamCount)
  {
    var parsed := ParseInt(text);
    if parsed.Some? && parsed.value >= 1 {
      var placement := CappedPlacement(text);
      if placement <= teamCount {
        var i := FirstFailing(d, NoClash(placement, team));
        assert forall j :: 0 <= j < |d| ==> NoClash(placement, team)(d[j]) == !(d[j].1 == placement && d[j].0 != team);
      }
    }
  }

  /** The placement a parsed text stands for once capped at 30. */
  function CappedPlacement(text: string): int {
    var parsed := ParseInt(text);
    if parsed.Some? && parsed.value > 30 then 30 else parsed.GetOr(0)
  }

  /**
   * No two teams share a placement within the number of teams: what the
   * input modal guards.  Placements beyond it may repeat.
   */
  ghost predicate UniqueWithinField(d: seq<(int, int)>, teamCount: nat) {
    forall a, b :: a != b && Lookup(d, a).Some? && Lookup(d, a) == Lookup(d, b) ==> Lookup(d, a).value > teamCount
  }

  /** Storing an accepted entry keeps placements within the field unique. */
  lemma EntryKeepsUnique(d: seq<(int, int)>, teamCount: nat, team: int, text: string)
    requires UniqueWithinField(d, teamCount)
    requires PlacementEntry(d, teamCount, team, text).Ok?
    ensures UniqueWithinField(Put(d, team, PlacementEntry(d, teamCount, team, text).value), teamCount)
  {
    var v := PlacementEntry(d, teamCount, team, text).value;
    var r := Put(d, team, v);
    EntryMeaning(d, teamCount, team, text);
    forall a, b | a != b && Lookup(r, a).Some? && Lookup(r, a) == Lookup(r, b)
      ensures Lookup(r, a).value > teamCount
    {
      if a == team || b == team {
        var other := if a == team then b else a;
        assert Lookup(r, other) == Lookup(d, other) == Some(v);
        var i := IndexOfKey(d, other);
        assert d[i] == (other, v);
      } else {
        assert Lookup(r, a) == Lookup(d, a) && Lookup(r, b) == Lookup(d, b);
      }
    }
  }

  /** `PlacementResultView`: one placement button per team and a submit button enabled once all are set. */
  class PlacementResultView {
    const teamCount: nat
    var teamPlacements: seq<(int, int)>
    var submitEnabled: bool

    ghost predicate Valid()
      reads this
    {
      DistinctKeys(teamPlacements) && KeysWithin(teamPlacements, teamCount) &&
      UniqueWithinField(teamPlacements, teamCount) &&
      (submitEnabled <==> 0 < |teamPlacements| == teamCount)
    }

    /** A dialogue for at least one team, with no placement set and submit disabled. */
    constructor(teamCount: nat)
      ensures this.teamCount == teamCount && teamPlacements == [] && !submitEnabled
      ensures Valid()
    {
      this.teamCount := teamCount;
      teamPlacements := [];
      submitEnabled := false;
    }

    /** `update_team_placement`: overwrite one team's placement and enable submit once every team has one. */
    method UpdateTeamPlacement(teamNumber: int, placement: int)
      requires DistinctKeys(teamPlacements) && KeysWithin(teamPlacements, teamCount)
      requires submitEnabled <==> 0 < |teamPlacements| == teamCount
      requires 1 <= teamNumber <= teamCount
      modifies this
      ensures DistinctKeys(teamPlacements) && KeysWithin(teamPlacements, teamCount)
      ensures submitEnabled <==> 0 < |teamPlacements| == teamCount
      ensures teamPlacements == Put(old(teamPlacements), teamNumber, placement)
      ensures submitEnabled == (old(submitEnabled) || |teamPlacements| == teamCount)
    {
      PutWithin(teamPlacements, teamCount, teamNumber, placement);
      teamPlacements := Put(teamPlacements, teamNumber, placement);
      if |teamPlacements| == teamCount {
        submitEnabled := true;
      }
    }

    /**
     * `PlacementInputModal.on_submit` for team `teamNumber`: on success the
     * placement is stored and the preview rating change returned; otherwise
     * the answer's message and nothing changes.
     */
    method SubmitPlacement(teamNumber: int, text: string) returns (r: Result<real>)
      requires Valid() && 1 <= teamNumber <= teamCount
      modifies this
      ensures Valid()
      ensures var e := PlacementEntry(old(teamPlacements), teamCount, teamNumber, text);
        (e.Err? ==> r == Err(e.message) && teamPlacements == old(teamPlacements) && submitEnabled == old(submitEnabled)) &&
        (e.Ok? ==>
          r == Ok(PreviewRatingChange(e.value)) &&
          teamPlacements == Put(old(teamPlacements), teamNumber, e.value) &&
          submitEnabled == (old(submitEnabled) || |teamPlacements| == teamCount))
    {
      var parsed := ParseInt(text);
      if parsed.None? {
        return Err("❌ Please enter a valid number for placement");
      }
      var placement := parsed.value;
      if placement < 1 {
        return Err("❌ Placement must be 1 or higher (1 = 1st place)");
      }
      if placement > 30 {
        placement := 30;
      }
      if placement <= teamCount {
        var i := FindClash(teamPlacements, placement, teamNumber);
        if i >= 0 {
          return Err("❌ Placement " + IntToString(placement) + " is already assigned to Team " + IntToString(teamPlacements[i].0));
        }
      }
      assert PlacementEntry(teamPlacements, teamCount, teamNumber, text) == Ok(placement);
      EntryKeepsUnique(teamPlacements, teamCount, teamNumber, text);
      UpdateTeamPlacement(teamNumber, placement);
      r := Ok(PreviewRatingChange(placement));
    }

    /** `validate_placements` on the dialogue's state. */
    function Validate(): Result<(bool, string)>
      reads this
    {
      ValidatePlacements(teamPlacements, teamCount)
    }
  }

  // ---------------------------------------------------------------------------
  // Pagination

  /** `PaginatedView`: the page shown and whether each button is disabled. */
  class PaginatedView {
    const pageCount: nat
    var currentPage: int
    var previousDisabled: bool
    var nextDisabled: bool

    /** The page is within the pages; previous is off exactly on the first page, next exactly on the last. */
    ghost predicate Valid()
      reads this
    {
      0 <= currentPage && (currentPage < pageCount || currentPage == 0) &&
      (previousDisabled <==> currentPage == 0) &&
      (nextDisabled <==> currentPage == pageCount - 1 || pageCount == 0)
    }

    /** The first page, with previous disabled, and next disabled too when there is at most one page. */
    constructor(pageCount: nat)
      ensures this.pageCount == pageCount && currentPage == 0
      ensures previousDisabled && (nextDisabled <==> pageCount <= 1)
      ensures Valid()
    {
      this.pageCount := pageCount;
      currentPage := 0;
      previousDisabled := true;
      nextDisabled := pageCount <= 1;
    }

    /** `update_buttons`. */
    method UpdateButtons()
      modifies this
      ensures currentPage == old(currentPage)
      ensures previousDisabled == (currentPage == 0)
      ensures nextDisabled == (currentPage == pageCount - 1)
    {
      previousDisabled := currentPage == 0;
      nextDisabled := currentPage == pageCount - 1;
    }

    /** `previous_page`: one page back unless on the first. */
    method PreviousPage()
      requires Valid()
      modifies this
      ensures Valid()
      ensures currentPage == if old(currentPage) > 0 then old(currentPage) - 1 else old(currentPage)
    {
      if currentPage > 0 {
        currentPage := currentPage - 1;
        UpdateButtons();
      }
    }

    /** `next_page`: one page on unless on the last. */
    method NextPage()
      requires Valid()
      modifies this
      ensures Valid()
      ensures currentPage == if old(currentPage) < pageCount - 1 then old(currentPage) + 1 else old(currentPage)
    {
      if currentPage < pageCount - 1 {
        currentPage := currentPage + 1;
        UpdateButtons();
      }
    }
  }
}
