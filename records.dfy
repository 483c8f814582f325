/**
 * The rows the match routes read and write (`users`, `matches`,
 * `match_players`), as values, and the statistics update every completed
 * match applies to a user.
 */
module Records {

  import opened Common

  /** `MatchStatus`. */
  datatype MatchStatus = Pending | Completed | Cancelled

  /**
   * `ResultType` as the routes use it: the three declared members plus the
   * `PLACEMENT` member that placement results are stored with.
   */
  datatype ResultType = WinLoss | DrawResult | CancelledResult | PlacementResult

  /** `PlayerResult`; `Undecided` is `PENDING`. */
  datatype PlayerResult = Win | Loss | Draw | Undecided

  /** A `users` row: rating and statistics of one member of one guild. */
  datatype User = User(ratingMu: real, ratingSigma: real, gamesPlayed: int, wins: int, losses: int, draws: int)

  /** A `match_players` row. `teamPlacement` is the placement the placement route records. */
  datatype MatchPlayer = MatchPlayer(
    userId: int,
    guildId: int,
    teamNumber: int,
    muBefore: real,
    sigmaBefore: real,
    muAfter: Option<real>,
    sigmaAfter: Option<real>,
    result: PlayerResult,
    teamPlacement: Option<int>)

  /** The columns of a `matches` row that the result routes change. */
  datatype MatchRow = MatchRow(status: MatchStatus, resultType: Option<ResultType>, winningTeam: Option<int>)

  /** The `users` key of a player's row: guild and user id. */
  function UserKey(p: MatchPlayer): (int, int) {
    (p.guildId, p.userId)
  }

  /** `ResultType` members by attribute name, exactly as `api/database/models.py` declares them. */
  const DeclaredResultTypes: seq<(string, ResultType)> :=
    [("WIN_LOSS", WinLoss), ("DRAW", DrawResult), ("CANCELLED", CancelledResult)]

  /** The members with the `PLACEMENT` member the placement route needs. */
  const ResultTypes: seq<(string, ResultType)> := DeclaredResultTypes + [("PLACEMENT", PlacementResult)]

  /** `ResultType.<name>`: `None` where Python raises `AttributeError`. */
  function MemberNamed(members: seq<(string, ResultType)>, name: string): (r: Option<ResultType>)
    ensures r.Some? <==> exists i :: 0 <= i < |members| && members[i].0 == name
    ensures r.Some? ==> exists i :: 0 <= i < |members| && members[i] == (name, r.value)
  {
    if |members| == 0 then None
    else if members[0].0 == name then
      assert members[0] == (name, members[0].1);
      Some(members[0].1)
    else
      var r := MemberNamed(members[1..], name);
      assert forall i :: 1 <= i < |members| ==> members[i] == members[1..][i - 1];
      r
  }

  /** `ResultType.PLACEMENT` does not exist among the declared members; with the member added it does. */
  lemma PlacementMemberMissing()
    ensures MemberNamed(DeclaredResultTypes, "PLACEMENT") == None
    ensures MemberNamed(ResultTypes, "PLACEMENT") == Some(PlacementResult)
  {
    assert MemberNamed(ResultTypes, "PLACEMENT") == MemberNamed(ResultTypes[3..], "PLACEMENT");
  }

  /**
   * The statistics update for one finished game: one more game played and
   * one more win, loss or draw by the result.
   */
  function Counted(u: User, result: PlayerResult): User {
    var u' := u.(gamesPlayed := u.gamesPlayed + 1);
    match result
    case Win => u'.(wins := u.wins + 1)
    case Loss => u'.(losses := u.losses + 1)
    case Draw => u'.(draws := u.draws + 1)
    case Undecided => u'
  }

  /**
   * A decided result adds one game and exactly one of a win, a loss or a
   * draw; the rating is untouched.
   */
  lemma CountedOneMore(u: User, result: PlayerResult)
    requires result != Undecided
    ensures var c := Counted(u, result);
      c.gamesPlayed == u.gamesPlayed + 1 &&
      c.wins + c.losses + c.draws == u.wins + u.losses + u.draws + 1 &&
      (c.wins == u.wins + 1 <==> result == Win) &&
      (c.losses == u.losses + 1 <==> result == Loss) &&
      (c.draws == u.draws + 1 <==> result == Draw) &&
      c.wins >= u.wins && c.losses >= u.losses && c.draws >= u.draws &&
      c.ratingMu == u.ratingMu && c.ratingSigma == u.ratingSigma
  {
  }
}
