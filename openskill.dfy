/**
 * `OpenSkillService`: the arithmetic the service wraps around the
 * Plackett-Luce model for guild teams that may play in a larger field of
 * external teams.  The library's `rate` is a parameter: it receives the
 * teams and their ranks and returns the updated teams, or `None` where the
 * library raises.  Dicts keyed by team number are their items in insertion
 * order.
 */
module OpenSkill {

  import opened Common
  import Sorting

  /** An `OpenSkillRating` once `__post_init__` has run. */
  datatype Rating = Rating(mu: real, sigma: real)

  type Team = seq<Rating>

  /** `team_placements -> updated teams`, or `None` when the library raises. */
  type RateFn = (seq<Team>, seq<int>) -> Option<seq<Team>>

  const DefaultMu: real := 25.0
  const DefaultSigma: real := 8.333
  const MinSigma: real := 0.1
  /** Display points per unit of mu. */
  const DisplayScale: real := 60.0

  // ---------------------------------------------------------------------------
  // Ratings

  /** What `__post_init__` guarantees: mu at least 0 and sigma at least 0.1. */
  predicate Clamped(r: Rating) {
    r.mu >= 0.0 && r.sigma >= MinSigma
  }

  /** `OpenSkillRating(mu, sigma)`: `max(0.0, mu)` and `max(0.1, sigma)`. */
  function MakeRating(mu: real, sigma: real): (r: Rating)
    ensures Clamped(r)
    ensures r.mu >= mu && r.sigma >= sigma
    ensures mu >= 0.0 ==> r.mu == mu
    ensures mu < 0.0 ==> r.mu == 0.0
    ensures sigma >= MinSigma ==> r.sigma == sigma
    ensures sigma < MinSigma ==> r.sigma == MinSigma
  {
    Rating(if mu >= 0.0 then mu else 0.0, if sigma >= MinSigma then sigma else MinSigma)
  }

  /** Clamping keeps exactly the clamped ratings and is idempotent. */
  lemma MakeRatingFixes(mu: real, sigma: real)
    ensures MakeRating(mu, sigma) == Rating(mu, sigma) <==> Clamped(Rating(mu, sigma))
    ensures var r := MakeRating(mu, sigma); MakeRating(r.mu, r.sigma) == r
  {
  }

  /** `create_rating(mu, sigma)`: a missing value is the default 25 / 8.333. */
  function CreateRating(mu: Option<real>, sigma: Option<real>): Rating {
    MakeRating(mu.GetOr(DefaultMu), sigma.GetOr(DefaultSigma))
  }

  /** The `ordinal` property: the conservative estimate `mu - 3 sigma`. */
  function Ordinal(r: Rating): real {
    r.mu - 3.0 * r.sigma
  }

  /** The `display_rating` property. */
  function Display(r: Rating): real {
    r.mu * DisplayScale
  }

  /** `get_rating_change`: display points gained. */
  function RatingChange(before: Rating, after: Rating): real {
    Display(after) - Display(before)
  }

  /**
   * The default rating displays as 1500 with ordinal 0.001; every clamped
   * rating displays non-negatively with an ordinal at least 0.3 below mu.
   */
  lemma RatingScale(r: Rating)
    requires Clamped(r)
    ensures CreateRating(None, None) == Rating(25.0, 8.333)
    ensures Display(CreateRating(None, None)) == 1500.0
    ensures Ordinal(CreateRating(None, None)) == 0.001
    ensures Display(r) >= 0.0
    ensures Ordinal(r) <= r.mu - 0.3
  {
  }

  /** A rating change is 60 points per unit of mu and has the sign of the mu change. */
  lemma RatingChangeSign(before: Rating, after: Rating)
    ensures RatingChange(before, after) == 60.0 * (after.mu - before.mu)
    ensures RatingChange(before, after) > 0.0 <==> after.mu > before.mu
    ensures RatingChange(before, after) == 0.0 <==> after.mu == before.mu
  {
  }

  // ---------------------------------------------------------------------------
  // Competition type

  datatype CompetitionType = GuildOnly | External | Mixed

  /** `(competition_type, total_competitors, guild_teams_count, external_teams_count)`. */
  datatype Competition = Competition(kind: CompetitionType, totalCompetitors: int, guildTeams: int, externalTeams: int)

  /**
   * `detect_competition_type`; `None` where `max()` of no placements
   * raises.  The guild and external counts always add up to the total.
   */
  function DetectCompetitionType(placements: seq<(int, int)>): (r: Option<Competition>)
    ensures r.None? <==> |placements| == 0
    ensures r.Some? ==> r.value.guildTeams == |placements|
    ensures r.Some? ==> r.value.guildTeams + r.value.externalTeams == r.value.totalCompetitors
  {
    if |placements| == 0 then None
    else
      var n := |placements|;
      var values := Values(placements);
      var maxPlacement := MaxOf(values);
      if SetOf(values) == OneTo(n) && MinOf(values) == 1 then
        Some(Competition(GuildOnly, n, n, 0))
      else
        Some(Competition(if maxPlacement > n then External else Mixed, maxPlacement, n, maxPlacement - n))
  }

  /**
   * Guild-only exactly when the placements are `1..n` (the `min == 1` test
   * adds nothing); otherwise the field runs to the largest placement and
   * it is external exactly when that exceeds the number of guild teams.
   */
  lemma {:induction false} CompetitionKinds(placements: seq<(int, int)>)
    requires |placements| > 0
    ensures var c := DetectCompetitionType(placements).value;
      var n := |placements|;
      (c.kind == GuildOnly <==> SetOf(Values(placements)) == OneTo(n)) &&
      (c.kind == GuildOnly ==> c == Competition(GuildOnly, n, n, 0)) &&
      (c.kind != GuildOnly ==>
        c.totalCompetitors == MaxOf(Values(placements)) &&
        c.externalTeams == c.totalCompetitors - n &&
        (c.kind == External <==> c.externalTeams > 0))
  {
    var values := Values(placements);
    if SetOf(values) == OneTo(|placements|) {
      assert 1 in SetOf(values);
      assert MinOf(values) in SetOf(values);
    }
  }

  /** Two guild teams that both claim first place make a "mixed" field of one competitor and -1 external teams. */
  lemma SharedFirstPlace()
    ensures DetectCompetitionType([(1, 1), (2, 1)]) == Some(Competition(Mixed, 1, 2, -1))
  {
    var values := Values([(1, 1), (2, 1)]);
    assert values == [1, 1];
    assert 2 !in SetOf(values);
    assert SetOf(values) != OneTo(2);
  }

  /**
   * With distinct placements of at least 1, as validated results have, a
   * field is never "mixed", and the placements `1..total` not held by a
   * guild team number exactly the external teams.
   */
  lemma ValidatedField(placements: seq<(int, int)>)
    requires |placements| > 0
    requires Distinct(Values(placements))
    requires forall i :: 0 <= i < |placements| ==> placements[i].1 >= 1
    ensures var c := DetectCompetitionType(placements).value;
      c.kind != Mixed &&
      c.externalTeams >= 0 &&
      |Placeholders(c.totalCompetitors, SetOf(Values(placements)))| == c.externalTeams
  {
    var held := SetOf(Values(placements));
    var c := DetectCompetitionType(placements).value;
    ValidatedNotMixed(placements);
    PlaceholdersCount(c.totalCompetitors, held);
    IntersectSubset(held, OneTo(c.totalCompetitors));
  }

  lemma IntersectSubset(a: set<int>, b: set<int>)
    requires a <= b
    ensures a * b == a
  {
  }

  /** The validated placements all lie in `1..total`, and the field is never "mixed". */
  lemma ValidatedNotMixed(placements: seq<(int, int)>)
    requires |placements| > 0
    requires Distinct(Values(placements))
    requires forall i :: 0 <= i < |placements| ==> placements[i].1 >= 1
    ensures var c := DetectCompetitionType(placements).value;
      c.kind != Mixed && c.externalTeams >= 0 && c.totalCompetitors >= 0 &&
      |SetOf(Values(placements))| == |placements| &&
      SetOf(Values(placements)) <= OneTo(c.totalCompetitors)
  {
    var held := SetOf(Values(placements));
    var n := |placements|;
    HeldPlacements(placements);
    CompetitionKinds(placements);
    if MaxOf(Values(placements)) == n {
      SubsetSameSize(held, OneTo(n));
    }
  }

  /** Distinct placements of at least 1 are `n` numbers in `1..max`, so their maximum is at least `n`. */
  lemma HeldPlacements(placements: seq<(int, int)>)
    requires |placements| > 0
    requires Distinct(Values(placements))
    requires forall i :: 0 <= i < |placements| ==> placements[i].1 >= 1
    ensures var held := SetOf(Values(placements));
      held <= OneTo(MaxOf(Values(placements))) && |held| == |placements| && MaxOf(Values(placements)) >= |placements|
  {
    var values := Values(placements);
    var held := SetOf(values);
    DistinctCard(values);
    assert held <= OneTo(MaxOf(values));
    SubsetCard(held, OneTo(MaxOf(values)));
  }

  // ---------------------------------------------------------------------------
  // External teams

  function MusOf(team: Team): (mus: seq<real>)
    ensures |mus| == |team| && forall j :: 0 <= j < |team| ==> mus[j] == team[j].mu
  {
    seq(|team|, j requires 0 <= j < |team| => team[j].mu)
  }

  /** Each guild team's strength: the sum of its players' mu. */
  function Strengths(guildTeams: seq<(int, Team)>): (s: seq<real>)
    ensures |s| == |guildTeams| && forall i :: 0 <= i < |guildTeams| ==> s[i] == SumReal(MusOf(guildTeams[i].1))
  {
    seq(|guildTeams|, i requires 0 <= i < |guildTeams| => SumReal(MusOf(guildTeams[i].1)))
  }

  /** Mean placement of the guild teams, with Python's true division. */
  function AvgPlacement(placements: seq<(int, int)>): real
    requires |placements| > 0
  {
    (Sum(Values(placements)) as real) / (|placements| as real)
  }

  /** Guild teams placing well (mean at most 3) meet weaker externals, poorly (above 6) stronger ones. */
  function ExternalMultiplier(avgPlacement: real): real {
    if avgPlacement <= 3.0 then 0.95
    else if avgPlacement <= 6.0 then 1.0
    else 1.1
  }

  /** The multiplier only grows as the guild teams place worse. */
  lemma ExternalMultiplierSteps(a: real, b: real)
    requires a <= b
    ensures ExternalMultiplier(a) <= ExternalMultiplier(b)
    ensures ExternalMultiplier(a) in {0.95, 1.0, 1.1}
  {
  }

  /**
   * `estimate_external_team_strength`: the default rating without guild
   * teams; otherwise the mean guild team strength scaled by the placement
   * multiplier and divided among four players, with sigma 8.333.  `None`
   * where the mean placement divides by zero.
   */
  function EstimateExternalStrength(guildTeams: seq<(int, Team)>, placements: seq<(int, int)>): (r: Option<Rating>)
    ensures r.None? <==> |guildTeams| > 0 && |placements| == 0
    ensures |guildTeams| == 0 ==> r == Some(Rating(DefaultMu, DefaultSigma))
  {
    if |guildTeams| == 0 then Some(CreateRating(None, None))
    else if |placements| == 0 then None
    else
      var avgStrength := SumReal(Strengths(guildTeams)) / (|guildTeams| as real);
      var externalMu := avgStrength * ExternalMultiplier(AvgPlacement(placements));
      Some(MakeRating(externalMu / 4.0, 8.333))
  }

  lemma {:induction false} SumRealNonNegative(xs: seq<real>)
    requires forall i :: 0 <= i < |xs| ==> xs[i] >= 0.0
    ensures SumReal(xs) >= 0.0
  {
    if |xs| > 0 {
      SumRealNonNegative(xs[..|xs| - 1]);
    }
  }

  /** Every player's mu is at least 0: what `OpenSkillRating` guarantees. */
  predicate AllClamped(guildTeams: seq<(int, Team)>) {
    forall i, j :: 0 <= i < |guildTeams| && 0 <= j < |guildTeams[i].1| ==> Clamped(guildTeams[i].1[j])
  }

  lemma StrengthsNonNegative(guildTeams: seq<(int, Team)>)
    requires AllClamped(guildTeams)
    ensures SumReal(Strengths(guildTeams)) >= 0.0
  {
    forall i | 0 <= i < |guildTeams| ensures Strengths(guildTeams)[i] >= 0.0 {
      SumRealNonNegative(MusOf(guildTeams[i].1));
    }
    SumRealNonNegative(Strengths(guildTeams));
  }

  /**
   * With clamped guild ratings the estimate is exactly a quarter of the
   * scaled mean strength, and a worse mean placement never gives weaker
   * external teams.
   */
  lemma EstimateFollowsPlacement(guildTeams: seq<(int, Team)>, better: seq<(int, int)>, worse: seq<(int, int)>)
    requires |guildTeams| > 0 && |better| > 0 && |worse| > 0
    requires AllClamped(guildTeams)
    requires AvgPlacement(better) <= AvgPlacement(worse)
    ensures var avgStrength := SumReal(Strengths(guildTeams)) / (|guildTeams| as real);
      EstimateExternalStrength(guildTeams, better) ==
        Some(Rating(avgStrength * ExternalMultiplier(AvgPlacement(better)) / 4.0, 8.333))
    ensures EstimateExternalStrength(guildTeams, better).value.mu <= EstimateExternalStrength(guildTeams, worse).value.mu
  {
    var avgStrength := SumReal(Strengths(guildTeams)) / (|guildTeams| as real);
    StrengthsNonNegative(guildTeams);
    assert avgStrength >= 0.0;
    var m1 := ExternalMultiplier(AvgPlacement(better));
    var m2 := ExternalMultiplier(AvgPlacement(worse));
    ExternalMultiplierSteps(AvgPlacement(better), AvgPlacement(worse));
    assert avgStrength * m1 >= 0.0;
    assert avgStrength * m1 <= avgStrength * m2;
  }

  // ---------------------------------------------------------------------------
  // Assembling the field

  function AscendingKey(k: int): real {
    -(k as real)
  }

  /** `sorted(guild_teams.keys())`. */
  function GuildOrder(guildTeams: seq<(int, Team)>): (order: seq<int>)
    ensures multiset(order) == multiset(Keys(guildTeams))
    ensures forall i, j :: 0 <= i < j < |order| ==> order[i] <= order[j]
  {
    var order := Sorting.SortDesc(Keys(guildTeams), AscendingKey);
    assert forall i, j :: 0 <= i < j < |order| ==> AscendingKey(order[i]) >= AscendingKey(order[j]);
    order
  }

  /** `team_placements[team_num]` for each team in order; `None` where one raises `KeyError`. */
  function RanksOf(order: seq<int>, placements: seq<(int, int)>): (r: Option<seq<int>>)
    ensures r.Some? <==> forall i :: 0 <= i < |order| ==> Lookup(placements, order[i]).Some?
    ensures r.Some? ==> |r.value| == |order|
    ensures r.Some? ==> forall i :: 0 <= i < |order| ==> Lookup(placements, order[i]) == Some(r.value[i])
  {
    if |order| == 0 then Some([])
    else
      var init := RanksOf(order[..|order| - 1], placements);
      var last := Lookup(placements, order[|order| - 1]);
      assert forall i :: 0 <= i < |order| - 1 ==> order[..|order| - 1][i] == order[i];
      if init.None? || last.None? then None else Some(init.value + [last.value])
  }

  /** `guild_teams[team_num]` for each team in order. */
  function TeamsOf(order: seq<int>, guildTeams: seq<(int, Team)>): (teams: seq<Team>)
    ensures |teams| == |order| && forall i :: 0 <= i < |order| ==> teams[i] == Lookup(guildTeams, order[i]).GetOr([])
  {
    seq(|order|, i requires 0 <= i < |order| => Lookup(guildTeams, order[i]).GetOr([]))
  }

  /** The placements in `1..total` that no guild team holds, in ascending order. */
  function Placeholders(total: int, held: set<int>): (r: seq<int>)
    ensures forall p :: p in r <==> 1 <= p <= total && p !in held
    ensures forall i, j :: 0 <= i < j < |r| ==> r[i] < r[j]
    decreases total
  {
    if total < 1 then []
    else
      var init := Placeholders(total - 1, held);
      assert forall i :: 0 <= i < |init| ==> init[i] in init;
      if total in held then init else init + [total]
  }

  lemma {:induction false} PlaceholdersCount(total: int, held: set<int>)
    ensures total >= 0 ==> |Placeholders(total, held)| + |held * OneTo(total)| == total
    decreases total
  {
    if total == 0 {
      assert held * OneTo(0) == {};
    } else if total >= 1 {
      PlaceholdersCount(total - 1, held);
      HeldUpTo(total, held);
      var free := |Placeholders(total - 1, held)|;
      var taken := |held * OneTo(total - 1)|;
      assert free + taken == total - 1;
      if total in held {
        assert |Placeholders(total, held)| == free;
        HeldStep(total, held);
        assert |held * OneTo(total)| == taken + 1;
      } else {
        assert |Placeholders(total, held)| == free + 1;
        assert |held * OneTo(total)| == taken;
      }
    }
  }

  lemma HeldStep(total: int, held: set<int>)
    requires total >= 1 && total in held
    ensures |held * OneTo(total)| == |held * OneTo(total - 1)| + 1
  {
    HeldUpTo(total, held);
    var before := held * OneTo(total - 1);
    assert held * OneTo(total) == before + {total};
  }

  /** The held placements up to `total` are those up to `total - 1`, and `total` itself when held. */
  lemma HeldUpTo(total: int, held: set<int>)
    requires total >= 1
    ensures held * OneTo(total) == held * OneTo(total - 1) + (if total in held then {total} else {})
    ensures total !in held * OneTo(total - 1)
  {
  }

  /** An external team: four players with the estimated rating. */
  function PlaceholderTeam(estimate: Rating): Team {
    [estimate, estimate, estimate, estimate]
  }

  /**
   * The `all_teams`/`all_ranks` lists handed to `rate`: the guild teams in
   * team-number order with their placements, then a placeholder team for
   * each free placement when there are external teams.  `None` where
   * building them raises.
   */
  function Assemble(guildTeams: seq<(int, Team)>, placements: seq<(int, int)>): Option<(seq<Team>, seq<int>)> {
    var comp := DetectCompetitionType(placements);
    var order := GuildOrder(guildTeams);
    var ranks := RanksOf(order, placements);
    if comp.None? || ranks.None? then None
    else
      var guild := TeamsOf(order, guildTeams);
      if comp.value.externalTeams > 0 then
        var estimate := EstimateExternalStrength(guildTeams, placements).value;
        var free := Placeholders(comp.value.totalCompetitors, SetOf(Values(placements)));
        Some((guild + seq(|free|, _ => PlaceholderTeam(estimate)), ranks.value + free))
      else
        Some((guild, ranks.value))
  }

  lemma KeyFound<V>(d: seq<(int, V)>, k: int)
    requires k in Keys(d)
    ensures Lookup(d, k).Some?
  {
    var i :| 0 <= i < |d| && Keys(d)[i] == k;
    assert d[i].0 == k;
  }

  /** Every sorted team number is a key of the guild teams, so looking up its players succeeds. */
  lemma GuildOrderKeys(guildTeams: seq<(int, Team)>)
    ensures forall k :: k in GuildOrder(guildTeams) <==> k in Keys(guildTeams)
    ensures forall i :: 0 <= i < |GuildOrder(guildTeams)| ==> Lookup(guildTeams, GuildOrder(guildTeams)[i]).Some?
  {
    var order := GuildOrder(guildTeams);
    forall k ensures k in order <==> k in Keys(guildTeams) {
      assert k in order <==> k in multiset(order);
      assert k in Keys(guildTeams) <==> k in multiset(Keys(guildTeams));
    }
    forall i | 0 <= i < |order| ensures Lookup(guildTeams, order[i]).Some? {
      KeyFound(guildTeams, order[i]);
    }
  }

  /** Building the field fails exactly when there are no placements or a guild team has none. */
  lemma AssembleFails(guildTeams: seq<(int, Team)>, placements: seq<(int, int)>)
    ensures Assemble(guildTeams, placements).None? <==>
      |placements| == 0 || exists k :: k in Keys(guildTeams) && Lookup(placements, k).None?
  {
    var order := GuildOrder(guildTeams);
    GuildOrderKeys(guildTeams);
    if RanksOf(order, placements).None? {
      var i :| 0 <= i < |order| && Lookup(placements, order[i]).None?;
      assert order[i] in Keys(guildTeams);
    }
  }

  /**
   * A field that could be built lists each guild team, in team-number
   * order, with its placement; then, when there are external teams, one
   * placeholder team of four players of the estimated strength for each
   * placement up to the total that no guild team holds, and nothing else.
   */
  lemma AssembledField(guildTeams: seq<(int, Team)>, placements: seq<(int, int)>)
    requires Assemble(guildTeams, placements).Some?
    ensures var (teams, ranks) := Assemble(guildTeams, placements).value;
      var order := GuildOrder(guildTeams);
      var c := DetectCompetitionType(placements).value;
      |teams| == |ranks| && |order| <= |teams| &&
      (forall i :: 0 <= i < |order| ==>
        Lookup(guildTeams, order[i]) == Some(teams[i]) && Lookup(placements, order[i]) == Some(ranks[i])) &&
      (c.externalTeams <= 0 ==> |teams| == |order|) &&
      (c.externalTeams > 0 ==>
        (forall i :: |order| <= i < |teams| ==>
          teams[i] == PlaceholderTeam(EstimateExternalStrength(guildTeams, placements).value)) &&
        (forall p :: p in ranks[|order|..] <==> 1 <= p <= c.totalCompetitors && p !in Values(placements)))
  {
    var order := GuildOrder(guildTeams);
    GuildOrderKeys(guildTeams);
    var (teams, ranks) := Assemble(guildTeams, placements).value;
    var c := DetectCompetitionType(placements).value;
    if c.externalTeams > 0 {
      var free := Placeholders(c.totalCompetitors, SetOf(Values(placements)));
      assert ranks[|order|..] == free;
    }
  }

  /** `_from_openskill_rating` over one team: each updated rating is clamped again. */
  function Reclamped(team: Team): (r: Team)
    ensures |r| == |team| && forall j :: 0 <= j < |team| ==> r[j] == MakeRating(team[j].mu, team[j].sigma)
  {
    seq(|team|, j requires 0 <= j < |team| => MakeRating(team[j].mu, team[j].sigma))
  }

  /** Every re-clamped rating is clamped, and a team already clamped comes back unchanged. */
  lemma ReclampedMeaning(team: Team)
    ensures forall j :: 0 <= j < |team| ==> Clamped(Reclamped(team)[j])
    ensures (forall j :: 0 <= j < |team| ==> Clamped(team[j])) ==> Reclamped(team) == team
  {
    forall j | 0 <= j < |team|
      ensures Clamped(Reclamped(team)[j])
      ensures Clamped(team[j]) ==> Reclamped(team)[j] == team[j]
    {
      MakeRatingFixes(team[j].mu, team[j].sigma);
    }
  }

  /**
   * `calculate_guild_team_ratings`: the guild teams' updated ratings keyed
   * by team number in ascending order; the input unchanged wherever the
   * computation raises (no placements, a missing placement, the library
   * failing or returning too few teams).
   */
  function GuildTeamRatings(guildTeams: seq<(int, Team)>, placements: seq<(int, int)>, rate: RateFn): seq<(int, Team)> {
    var assembled := Assemble(guildTeams, placements);
    if assembled.None? then guildTeams
    else
      var updated := rate(assembled.value.0, assembled.value.1);
      var order := GuildOrder(guildTeams);
      if updated.None? || |updated.value| < |order| then guildTeams
      else Extracted(order, updated.value)
  }

  /**
   * The result holds the guild teams and nothing else: the same team
   * numbers, each once when the input's are distinct, and every rating
   * clamped unless the input came back unchanged.
   */
  lemma GuildTeamRatingsKeys(guildTeams: seq<(int, Team)>, placements: seq<(int, int)>, rate: RateFn)
    ensures var r := GuildTeamRatings(guildTeams, placements, rate);
      multiset(Keys(r)) == multiset(Keys(guildTeams)) &&
      (DistinctKeys(guildTeams) ==> DistinctKeys(r)) &&
      (r == guildTeams || forall i, j :: 0 <= i < |r| && 0 <= j < |r[i].1| ==> Clamped(r[i].1[j]))
  {
    var r := GuildTeamRatings(guildTeams, placements, rate);
    var order := GuildOrder(guildTeams);
    if r != guildTeams {
      assert Keys(r) == order;
      if DistinctKeys(guildTeams) {
        KeysDistinct(guildTeams);
        forall i, j | 0 <= i < j < |r| ensures r[i].0 != r[j].0 {
          assert r[i].0 == order[i] < order[j] || order[i] == order[j];
          if order[i] == order[j] {
            MultisetTwice(order, i, j);
          }
        }
      }
    }
  }

  lemma KeysDistinct<V>(d: seq<(int, V)>)
    requires DistinctKeys(d)
    ensures forall k :: multiset(Keys(d))[k] <= 1
  {
    var keys := Keys(d);
    assert Distinct(keys);
    forall k ensures multiset(keys)[k] <= 1 {
      DistinctCount(keys, k);
    }
  }

  lemma MultisetTwice(s: seq<int>, i: nat, j: nat)
    requires i < j < |s| && s[i] == s[j]
    ensures multiset(s)[s[i]] >= 2
  {
    assert s == s[..i] + [s[i]] + s[i + 1..j] + [s[j]] + s[j + 1..];
  }

  /** A team number without a placement leaves every guild rating as it was. */
  lemma GuildTeamRatingsFallback(guildTeams: seq<(int, Team)>, placements: seq<(int, int)>, rate: RateFn, k: int)
    requires k in Keys(guildTeams) && Lookup(placements, k).None?
    ensures GuildTeamRatings(guildTeams, placements, rate) == guildTeams
  {
    AssembleFails(guildTeams, placements);
  }

  /** `_from_openskill_rating` applied player by player. */
  method FromLibrary(team: Team) returns (converted: Team)
    ensures converted == Reclamped(team)
  {
    converted := [];
    var j := 0;
    while j < |team|
      invariant 0 <= j <= |team|
      invariant converted == Reclamped(team)[..j]
    {
      converted := converted + [MakeRating(team[j].mu, team[j].sigma)];
      j := j + 1;
    }
  }

  /** The guild teams and their placements, team by team; `None` at the first `KeyError`. */
  method GuildEntries(order: seq<int>, guildTeams: seq<(int, Team)>, placements: seq<(int, int)>)
    returns (teams: seq<Team>, ranks: Option<seq<int>>)
    ensures teams == TeamsOf(order, guildTeams) && ranks == RanksOf(order, placements)
  {
    teams := [];
    var found: seq<int> := [];
    var i := 0;
    while i < |order|
      invariant 0 <= i <= |order|
      invariant |found| == i
      invariant forall j :: 0 <= j < i ==> Lookup(placements, order[j]) == Some(found[j])
      invariant teams == TeamsOf(order, guildTeams)[..i]
    {
      var placement := Lookup(placements, order[i]);
      if placement.None? {
        assert !Lookup(placements, order[i]).Some?;
        return TeamsOf(order, guildTeams), None;
      }
      teams := teams + [Lookup(guildTeams, order[i]).GetOr([])];
      found := found + [placement.value];
      i := i + 1;
    }
    assert RanksOf(order, placements).Some?;
    assert RanksOf(order, placements).value == found;
    ranks := Some(found);
  }

  /** A placeholder team for each placement in `1..total` that is not among `values`. */
  method AddPlaceholders(teams: seq<Team>, ranks: seq<int>, total: int, values: seq<int>, estimate: Rating)
    returns (allTeams: seq<Team>, allRanks: seq<int>)
    ensures var free := Placeholders(total, SetOf(values));
      allTeams == teams + seq(|free|, _ => PlaceholderTeam(estimate)) && allRanks == ranks + free
  {
    allTeams, allRanks := teams, ranks;
    ghost var held := SetOf(values);
    var p := 1;
    while p <= total
      invariant total < 1 ==> p == 1
      invariant total >= 1 ==> 1 <= p <= total + 1
      invariant allRanks == ranks + Placeholders(p - 1, held)
      invariant allTeams == teams + seq(|Placeholders(p - 1, held)|, _ => PlaceholderTeam(estimate))
    {
      if p !in values {
        allTeams := allTeams + [PlaceholderTeam(estimate)];
        allRanks := allRanks + [p];
      }
      p := p + 1;
    }
  }

  /** The guild teams' entries of the library's answer, by index, keyed by team number. */
  function Extracted(order: seq<int>, rated: seq<Team>): (r: seq<(int, Team)>)
    requires |rated| >= |order|
    ensures Keys(r) == order
    ensures forall i :: 0 <= i < |order| ==> r[i].1 == Reclamped(rated[i])
  {
    seq(|order|, i requires 0 <= i < |order| => (order[i], Reclamped(rated[i])))
  }

  method ExtractGuild(order: seq<int>, rated: seq<Team>) returns (updated: seq<(int, Team)>)
    requires |rated| >= |order|
    ensures updated == Extracted(order, rated)
  {
    updated := [];
    var k := 0;
    while k < |order|
      invariant 0 <= k <= |order|
      invariant updated == Extracted(order, rated)[..k]
    {
      var team := FromLibrary(rated[k]);
      updated := updated + [(order[k], team)];
      k := k + 1;
    }
  }

  /** `calculate_guild_team_ratings`, loop by loop. */
  method CalculateGuildTeamRatings(guildTeams: seq<(int, Team)>, placements: seq<(int, int)>, rate: RateFn)
    returns (updated: seq<(int, Team)>)
    ensures updated == GuildTeamRatings(guildTeams, placements, rate)
  {
    var comp := DetectCompetitionType(placements);
    if comp.None? {
      return guildTeams;
    }
    var order := GuildOrder(guildTeams);
    // Guild teams take indices 0 .. |order| - 1, so `guild_team_indices` is `order` itself.
    var allTeams, ranks := GuildEntries(order, guildTeams, placements);
    if ranks.None? {
      return guildTeams;
    }
    var allRanks := ranks.value;
    if comp.value.externalTeams > 0 {
      var estimate := EstimateExternalStrength(guildTeams, placements).value;
      allTeams, allRanks := AddPlaceholders(allTeams, allRanks, comp.value.totalCompetitors, Values(placements), estimate);
    }
    assert Assemble(guildTeams, placements) == Some((allTeams, allRanks));
    var rated := rate(allTeams, allRanks);
    if rated.None? || |rated.value| < |order| {
      return guildTeams;
    }
    updated := ExtractGuild(order, rated.value);
  }

  // ---------------------------------------------------------------------------
  // Match ratings

  /** The fields `calculate_match_ratings` adds to a player's dict. */
  datatype PlayerUpdate = PlayerUpdate(
    competition: Competition,
    muAfter: real,
    sigmaAfter: real,
    displayBefore: real,
    displayAfter: real,
    ratingChange: real)

  /** A player's dict: the stored rating (`None` where the key is absent) and the added fields once computed. */
  datatype PlayerData = PlayerData(userId: int, muBefore: Option<real>, sigmaBefore: Option<real>, update: Option<PlayerUpdate>)

  /** The player's stored rating as an `OpenSkillRating`. */
  function StoredRating(p: PlayerData): Rating {
    CreateRating(p.muBefore, p.sigmaBefore)
  }

  function StoredTeam(players: seq<PlayerData>): (team: Team)
    ensures |team| == |players| && forall j :: 0 <= j < |players| ==> team[j] == StoredRating(players[j])
  {
    seq(|players|, j requires 0 <= j < |players| => StoredRating(players[j]))
  }

  /** The `guild_teams` dict built from the players' stored ratings. */
  function StoredRatings(playersByTeam: seq<(int, seq<PlayerData>)>): (teams: seq<(int, Team)>)
    ensures |teams| == |playersByTeam|
    ensures forall i :: 0 <= i < |playersByTeam| ==> teams[i] == (playersByTeam[i].0, StoredTeam(playersByTeam[i].1))
  {
    seq(|playersByTeam|, i requires 0 <= i < |playersByTeam| => (playersByTeam[i].0, StoredTeam(playersByTeam[i].1)))
  }

  /** `updated_team_ratings[team_num][player_idx]` when the team is there and long enough. */
  function NewRatingFor(updatedRatings: seq<(int, Team)>, teamNumber: int, index: nat): Option<Rating> {
    var team := Lookup(updatedRatings, teamNumber);
    if team.Some? && index < |team.value| then Some(team.value[index]) else None
  }

  /** One player's copy with the competition context and the new rating, or no change when there is none. */
  function UpdatedPlayer(p: PlayerData, comp: Competition, newRating: Option<Rating>): PlayerData {
    var update :=
      if newRating.Some? then
        var before := StoredRating(p);
        var after := newRating.value;
        PlayerUpdate(comp, after.mu, after.sigma, Display(before), Display(after), Display(after) - Display(before))
      else
        var mu := p.muBefore.GetOr(DefaultMu);
        PlayerUpdate(comp, mu, p.sigmaBefore.GetOr(DefaultSigma), mu * DisplayScale, mu * DisplayScale, 0.0);
    p.(update := Some(update))
  }

  function UpdatedTeam(players: seq<PlayerData>, teamNumber: int, comp: Competition, updatedRatings: seq<(int, Team)>): (r: seq<PlayerData>)
    ensures |r| == |players|
    ensures forall j :: 0 <= j < |players| ==>
      r[j] == UpdatedPlayer(players[j], comp, NewRatingFor(updatedRatings, teamNumber, j))
  {
    seq(|players|, j requires 0 <= j < |players| =>
      UpdatedPlayer(players[j], comp, NewRatingFor(updatedRatings, teamNumber, j)))
  }

  /** Every team's updated player dicts, in the order of the input dict. */
  function UpdatedTeams(playersByTeam: seq<(int, seq<PlayerData>)>, comp: Competition, updatedRatings: seq<(int, Team)>)
    : (r: seq<(int, seq<PlayerData>)>)
    ensures |r| == |playersByTeam|
    ensures forall i :: 0 <= i < |playersByTeam| ==>
      r[i] == (playersByTeam[i].0, UpdatedTeam(playersByTeam[i].1, playersByTeam[i].0, comp, updatedRatings))
  {
    seq(|playersByTeam|, i requires 0 <= i < |playersByTeam| =>
      (playersByTeam[i].0, UpdatedTeam(playersByTeam[i].1, playersByTeam[i].0, comp, updatedRatings)))
  }

  /**
   * `calculate_match_ratings`: every player's dict with the competition
   * context and the new rating; the input unchanged where detecting the
   * competition raises.
   */
  function MatchRatings(playersByTeam: seq<(int, seq<PlayerData>)>, placements: seq<(int, int)>, rate: RateFn): seq<(int, seq<PlayerData>)> {
    var updatedRatings := GuildTeamRatings(StoredRatings(playersByTeam), placements, rate);
    var comp := DetectCompetitionType(placements);
    if comp.None? then playersByTeam else UpdatedTeams(playersByTeam, comp.value, updatedRatings)
  }

  /**
   * Without placements nothing changes.  Otherwise every player keeps its
   * team and identity, carries the competition context, and its rating
   * change is the display after minus the display before; a player without
   * a new rating keeps its stored mu and sigma with change 0.
   */
  lemma MatchRatingsEach(playersByTeam: seq<(int, seq<PlayerData>)>, placements: seq<(int, int)>, rate: RateFn, i: nat, j: nat)
    requires i < |playersByTeam| && j < |playersByTeam[i].1|
    ensures |placements| == 0 ==> MatchRatings(playersByTeam, placements, rate) == playersByTeam
    ensures |placements| > 0 ==>
      var r := MatchRatings(playersByTeam, placements, rate);
      var p := playersByTeam[i].1[j];
      var updatedRatings := GuildTeamRatings(StoredRatings(playersByTeam), placements, rate);
      var newRating := NewRatingFor(updatedRatings, playersByTeam[i].0, j);
      |r| == |playersByTeam| && r[i].0 == playersByTeam[i].0 && |r[i].1| == |playersByTeam[i].1| &&
      r[i].1[j].userId == p.userId && r[i].1[j].update.Some? &&
      var u := r[i].1[j].update.value;
      u.competition == DetectCompetitionType(placements).value &&
      u.ratingChange == u.displayAfter - u.displayBefore &&
      (newRating.Some? ==>
        u.muAfter == newRating.value.mu && u.sigmaAfter == newRating.value.sigma &&
        u.displayBefore == Display(StoredRating(p))) &&
      (newRating.None? ==>
        u.muAfter == p.muBefore.GetOr(DefaultMu) &&
        u.sigmaAfter == p.sigmaBefore.GetOr(DefaultSigma) && u.ratingChange == 0.0)
  {
  }

  /**
   * When the guild calculation falls back (a team without a placement),
   * each player comes back with its stored rating and a change of 0.
   */
  lemma MatchRatingsUnrated(playersByTeam: seq<(int, seq<PlayerData>)>, placements: seq<(int, int)>, rate: RateFn, i: nat, j: nat)
    requires DistinctKeys(playersByTeam)
    requires |placements| > 0
    requires i < |playersByTeam| && j < |playersByTeam[i].1|
    requires Lookup(placements, playersByTeam[i].0).None?
    ensures var u := MatchRatings(playersByTeam, placements, rate)[i].1[j].update.value;
      u.muAfter == StoredRating(playersByTeam[i].1[j]).mu && u.ratingChange == 0.0
  {
    var stored := StoredRatings(playersByTeam);
    assert Keys(stored)[i] == playersByTeam[i].0;
    GuildTeamRatingsFallback(stored, placements, rate, playersByTeam[i].0);
    assert DistinctKeys(stored) by {
      forall a, b | 0 <= a < b < |stored| ensures stored[a].0 != stored[b].0 {
        assert stored[a].0 == playersByTeam[a].0 && stored[b].0 == playersByTeam[b].0;
      }
    }
    LookupAt(stored, i);
  }

  /** The stored ratings of one team, player by player. */
  method StoredTeamOf(players: seq<PlayerData>) returns (team: Team)
    ensures team == StoredTeam(players)
  {
    team := [];
    var j := 0;
    while j < |players|
      invariant 0 <= j <= |players|
      invariant team == StoredTeam(players)[..j]
    {
      team := team + [CreateRating(players[j].muBefore, players[j].sigmaBefore)];
      j := j + 1;
    }
  }

  /** One team's updated player dicts, player by player. */
  method UpdateTeam(players: seq<PlayerData>, teamNumber: int, comp: Competition, updatedRatings: seq<(int, Team)>)
    returns (updated: seq<PlayerData>)
    ensures updated == UpdatedTeam(players, teamNumber, comp, updatedRatings)
  {
    updated := [];
    var j := 0;
    while j < |players|
      invariant 0 <= j <= |players|
      invariant updated == UpdatedTeam(players, teamNumber, comp, updatedRatings)[..j]
    {
      updated := updated + [UpdatedPlayer(players[j], comp, NewRatingFor(updatedRatings, teamNumber, j))];
      j := j + 1;
    }
  }

  /** The `guild_teams` dict, team by team. */
  method StoredRatingsOf(playersByTeam: seq<(int, seq<PlayerData>)>) returns (guildTeams: seq<(int, Team)>)
    ensures guildTeams == StoredRatings(playersByTeam)
  {
    guildTeams := [];
    var i := 0;
    while i < |playersByTeam|
      invariant 0 <= i <= |playersByTeam|
      invariant guildTeams == StoredRatings(playersByTeam)[..i]
    {
      var team := StoredTeamOf(playersByTeam[i].1);
      guildTeams := guildTeams + [(playersByTeam[i].0, team)];
      i := i + 1;
    }
  }

  /** The final loop of `calculate_match_ratings`: every team's player dicts given their new ratings. */
  method UpdateAllTeams(playersByTeam: seq<(int, seq<PlayerData>)>, comp: Competition, updatedRatings: seq<(int, Team)>)
    returns (result: seq<(int, seq<PlayerData>)>)
    ensures result == UpdatedTeams(playersByTeam, comp, updatedRatings)
  {
    ghost var all := UpdatedTeams(playersByTeam, comp, updatedRatings);
    result := [];
    var i := 0;
    while i < |playersByTeam|
      invariant 0 <= i <= |playersByTeam|
      invariant result == all[..i]
    {
      var team := UpdateTeam(playersByTeam[i].1, playersByTeam[i].0, comp, updatedRatings);
      assert all[..i + 1] == all[..i] + [(playersByTeam[i].0, team)] by {
        assert all[i] == (playersByTeam[i].0, team);
      }
      result := result + [(playersByTeam[i].0, team)];
      i := i + 1;
    }
    assert all[..i] == all;
  }

  /** `calculate_match_ratings`, loop by loop. */
  method CalculateMatchRatings(playersByTeam: seq<(int, seq<PlayerData>)>, placements: seq<(int, int)>, rate: RateFn)
    returns (result: seq<(int, seq<PlayerData>)>)
    ensures result == MatchRatings(playersByTeam, placements, rate)
  {
    var guildTeams := StoredRatingsOf(playersByTeam);
    var updatedRatings := CalculateGuildTeamRatings(guildTeams, placements, rate);
    var comp := DetectCompetitionType(placements);
    if comp.None? {
      return playersByTeam;
    }
    result := UpdateAllTeams(playersByTeam, comp.value, updatedRatings);
  }

  // ---------------------------------------------------------------------------
  // Team strength

  function SigmaSquaresOf(team: Team): (squares: seq<real>)
    ensures |squares| == |team| && forall j :: 0 <= j < |team| ==> squares[j] == team[j].sigma * team[j].sigma
  {
    seq(|team|, j requires 0 <= j < |team| => team[j].sigma * team[j].sigma)
  }

  /** `get_team_strength`, with `math.sqrt` supplied: summed mu, and sigma the root of the summed variances. */
  function TeamStrength(team: Team, sqrt: real -> real): Rating {
    if |team| == 0 then CreateRating(None, None)
    else MakeRating(SumReal(MusOf(team)), sqrt(SumReal(SigmaSquaresOf(team))))
  }

  lemma {:induction false} SumRealAtLeast(xs: seq<real>, j: nat, floor: real)
    requires j < |xs|
    requires forall i :: 0 <= i < |xs| ==> xs[i] >= floor && xs[i] >= 0.0
    ensures SumReal(xs) >= xs[j] && SumReal(xs) >= floor
  {
    var init := xs[..|xs| - 1];
    if j < |xs| - 1 {
      SumRealAtLeast(init, j, floor);
    } else {
      SumRealNonNegative(init);
    }
  }

  lemma RootAtLeast(s: real)
    requires s >= 0.0 && s * s >= 0.01
    ensures s >= 0.1
  {
    assert (s - 0.1) * (s + 0.1) == s * s - 0.01;
    NonNegativeFactor(s - 0.1, s + 0.1);
  }

  lemma NonNegativeFactor(x: real, y: real)
    requires y > 0.0 && x * y >= 0.0
    ensures x >= 0.0
  {
  }

  /**
   * An empty team is the default rating.  A team of clamped ratings has mu
   * the sum of its players' mus, at least each one's, and sigma squared
   * the sum of their sigmas squared.
   */
  lemma TeamStrengthSums(team: Team, sqrt: real -> real, j: nat)
    requires forall x :: x >= 0.0 ==> sqrt(x) >= 0.0 && sqrt(x) * sqrt(x) == x
    requires j < |team|
    requires forall k :: 0 <= k < |team| ==> Clamped(team[k])
    ensures TeamStrength([], sqrt) == Rating(DefaultMu, DefaultSigma)
    ensures var r := TeamStrength(team, sqrt);
      r.mu == SumReal(MusOf(team)) && r.mu >= team[j].mu &&
      r.sigma * r.sigma == SumReal(SigmaSquaresOf(team))
  {
    var mus := MusOf(team);
    var squares := SigmaSquaresOf(team);
    var total := SumReal(squares);
    assert SumReal(mus) >= team[j].mu && SumReal(mus) >= 0.0 by {
      SumRealAtLeast(mus, j, 0.0);
    }
    assert total >= 0.01 by {
      forall k | 0 <= k < |squares|
        ensures squares[k] >= 0.01
      {
        SquareAtLeast(team[k].sigma);
      }
      SumRealAtLeast(squares, j, 0.01);
    }
    var root := sqrt(total);
    assert root >= MinSigma && root * root == total by {
      RootAtLeast(root);
    }
    assert TeamStrength(team, sqrt) == MakeRating(SumReal(mus), root);
  }

  lemma SquareAtLeast(s: real)
    requires s >= 0.1
    ensures s * s >= 0.01
  {
    assert s * s >= 0.1 * s;
  }
}
