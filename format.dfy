/**
 * Custom team formats: the `"3:3:4"` size strings of `test_custom_format.py`
 * and of the stand-alone team bot (`hp2br-team-bot.py`), their validation,
 * and the bot's split of a shuffled member list into teams of those sizes.
 */
module Format {

  import opened Common
  import opened Text

  // ---------------------------------------------------------------------------
  // Parsing

  /** `[int(x) for x in parts]`: `None` as soon as one piece is not a number. */
  function ParseAll(parts: seq<string>): (r: Option<seq<int>>)
    ensures r.Some? ==> |r.value| == |parts|
  {
    AllSome(parts, ParseInt)
  }

  /** The pieces convert exactly when each does, and then piece by piece. */
  lemma ParseAllMeaning(parts: seq<string>)
    ensures ParseAll(parts).Some? <==> forall i :: 0 <= i < |parts| ==> ParseInt(parts[i]).Some?
    ensures ParseAll(parts).Some? ==> forall i :: 0 <= i < |parts| ==> ParseInt(parts[i]) == Some(ParseAll(parts).value[i])
  {
    AllSomeMeaning(parts, ParseInt);
  }

  /**
   * `parse_format`: `[int(x.strip()) for x in format_str.split(':')]`, or
   * `None` where that raises.  `int` strips its argument by itself, so the
   * explicit `strip()` changes nothing (`Text.ParseIntOfStripped`).
   */
  function ParseFormat(formatStr: string): Option<seq<int>> {
    ParseAll(Split(formatStr, ':'))
  }

  /** The size list written as `parse_format` reads it: decimal numbers joined by `':'`. */
  function RenderFormat(sizes: seq<int>): string {
    Join(Rendered(sizes), ':')
  }

  function Rendered(sizes: seq<int>): (parts: seq<string>)
    ensures |parts| == |sizes|
    ensures forall i :: 0 <= i < |sizes| ==> parts[i] == IntToString(sizes[i])
  {
    if |sizes| == 0 then [] else [IntToString(sizes[0])] + Rendered(sizes[1..])
  }

  lemma ParseRendered(sizes: seq<int>)
    ensures ParseAll(Rendered(sizes)) == Some(sizes)
  {
    var parts := Rendered(sizes);
    forall i | 0 <= i < |parts|
      ensures ParseInt(parts[i]) == Some(sizes[i])
    {
      ParseIntToString(sizes[i]);
    }
    ParseAllMeaning(parts);
    var values := ParseAll(parts).value;
    assert |values| == |sizes|;
    assert forall i :: 0 <= i < |sizes| ==> values[i] == sizes[i];
    assert values == sizes;
  }

  /** Writing a non-empty size list out and parsing it back gives the same list. */
  lemma FormatRoundTrip(sizes: seq<int>)
    requires |sizes| > 0
    ensures ParseFormat(RenderFormat(sizes)) == Some(sizes)
  {
    var parts := Rendered(sizes);
    forall i | 0 <= i < |parts| ensures ':' !in parts[i] {
      IntToStringHasNo(sizes[i], ':');
    }
    SplitJoin(parts, ':');
    ParseRendered(sizes);
  }

  // ---------------------------------------------------------------------------
  // Validation

  const MaxTeams: nat := 6
  const MaxTeamSize: nat := 8

  /** Why `validate_format` refuses a size list; `FormatMessage` gives its text. */
  datatype FormatProblem = Missing | TooManyTeams | TooFewTeams | SizeBelowOne | SizeTooLarge

  function FormatMessage(p: FormatProblem, maxTeams: int, maxTeamSize: int): string {
    match p
    case Missing => "Invalid format"
    case TooManyTeams => "Too many teams (max " + IntToString(maxTeams) + ")"
    case TooFewTeams => "Need at least 2 teams"
    case SizeBelowOne => "All team sizes must be at least 1"
    case SizeTooLarge => "Team too large (max " + IntToString(maxTeamSize) + ")"
  }

  /** `any(size < bound for size in sizes)`. */
  function AnyBelow(sizes: seq<int>, bound: int): (b: bool)
    ensures b <==> exists i :: 0 <= i < |sizes| && sizes[i] < bound
  {
    if |sizes| == 0 then false
    else
      assert forall i :: 1 <= i < |sizes| ==> sizes[i] == sizes[1..][i - 1];
      sizes[0] < bound || AnyBelow(sizes[1..], bound)
  }

  /** `any(size > bound for size in sizes)`. */
  function AnyAbove(sizes: seq<int>, bound: int): (b: bool)
    ensures b <==> exists i :: 0 <= i < |sizes| && sizes[i] > bound
  {
    if |sizes| == 0 then false
    else
      assert forall i :: 1 <= i < |sizes| ==> sizes[i] == sizes[1..][i - 1];
      sizes[0] > bound || AnyAbove(sizes[1..], bound)
  }

  /** The checks of `validate_format`, in order; `None` when the list passes all of them. */
  function FormatProblemOf(sizes: Option<seq<int>>, maxTeams: int, maxTeamSize: int): Option<FormatProblem> {
    if sizes.None? || |sizes.value| == 0 then Some(Missing)
    else if |sizes.value| > maxTeams then Some(TooManyTeams)
    else if |sizes.value| < 2 then Some(TooFewTeams)
    else if AnyBelow(sizes.value, 1) then Some(SizeBelowOne)
    else if AnyAbove(sizes.value, maxTeamSize) then Some(SizeTooLarge)
    else None
  }

  /** `validate_format`: `(True, "Valid")`, or `False` with the first check's message. */
  function ValidateFormat(sizes: Option<seq<int>>, maxTeams: int, maxTeamSize: int): (bool, string) {
    var p := FormatProblemOf(sizes, maxTeams, maxTeamSize);
    if p.None? then (true, "Valid") else (false, FormatMessage(p.value, maxTeams, maxTeamSize))
  }

  /** With the defaults, a list is accepted exactly when it has 2 to 6 teams of 1 to 8 players each. */
  lemma FormatAccepted(sizes: Option<seq<int>>)
    ensures ValidateFormat(sizes, MaxTeams, MaxTeamSize).0 <==>
      sizes.Some? && 2 <= |sizes.value| <= 6 && forall i :: 0 <= i < |sizes.value| ==> 1 <= sizes.value[i] <= 8
  {
  }

  /** A piece followed by `':'` and more text parses as that piece in front of the rest. */
  lemma ParseFormatCons(piece: string, rest: string)
    requires ':' !in piece
    ensures ParseFormat(piece + [':'] + rest) ==
      if ParseInt(piece).None? || ParseFormat(rest).None? then None
      else Some([ParseInt(piece).value] + ParseFormat(rest).value)
  {
    SplitAfterSeparator(piece, rest, ':');
    assert ([piece] + Split(rest, ':'))[1..] == Split(rest, ':');
  }

  /** An empty piece, as in `"3::4"`, makes the whole format unparsable, and so does the empty string. */
  lemma EmptyPieceRejected(before: string, after: string)
    requires ':' !in before
    ensures ParseFormat(before + [':', ':'] + after).None?
    ensures ParseFormat("").None?
  {
    assert before + [':', ':'] + after == before + [':'] + ([] + [':'] + after);
    ParseFormatCons(before, [] + [':'] + after);
    ParseFormatCons([], after);
    assert Split("", ':') == [""];
  }

  /** A piece that is not a number, as in `"abc:def"`, makes the whole format unparsable. */
  lemma NonNumericRejected(formatStr: string, i: nat)
    requires i < |Split(formatStr, ':')| && ParseInt(Split(formatStr, ':')[i]).None?
    ensures ParseFormat(formatStr).None?
  {
    ParseAllMeaning(Split(formatStr, ':'));
  }

  /** The sizes 3, 3 and 4 are written `3:3:4`. */
  lemma RenderFirstExample()
    ensures RenderFormat([3, 3, 4]) == "3:3:4"
  {
    var parts := Rendered([3, 3, 4]);
    assert parts == ["3", "3", "4"] by {
      assert IntToString(3) == "3" && IntToString(4) == "4";
    }
    assert Join(parts[1..], ':') == "3:4" by {
      assert parts[1..][1..] == ["4"];
    }
    assert "3" + [':'] + "3:4" == "3:3:4";
  }

  /** The first example of `test_custom_format.py` reads as teams of 3, 3 and 4. */
  lemma FirstExample()
    ensures ParseFormat("3:3:4") == Some([3, 3, 4])
  {
    RenderFirstExample();
    FormatRoundTrip([3, 3, 4]);
  }

  /** The size lists of the accepted examples of `test_custom_format.py` pass. */
  lemma AcceptedExamples()
    ensures FormatProblemOf(Some([3, 3, 4]), MaxTeams, MaxTeamSize).None?
    ensures FormatProblemOf(Some([4, 4]), MaxTeams, MaxTeamSize).None?
    ensures FormatProblemOf(Some([3, 3, 3]), MaxTeams, MaxTeamSize).None?
    ensures FormatProblemOf(Some([5, 4, 3]), MaxTeams, MaxTeamSize).None?
    ensures FormatProblemOf(Some([2, 2, 2, 2]), MaxTeams, MaxTeamSize).None?
    ensures FormatProblemOf(Some([6, 6]), MaxTeams, MaxTeamSize).None?
  {
  }

  /** The size lists of the rejected examples, each refused for the reason its comment gives. */
  lemma RejectedExamples()
    ensures FormatProblemOf(Some([3]), MaxTeams, MaxTeamSize) == Some(TooFewTeams)
    ensures FormatProblemOf(Some([3, 3, 3, 3, 3, 3, 3]), MaxTeams, MaxTeamSize) == Some(TooManyTeams)
    ensures FormatProblemOf(Some([0, 3, 3]), MaxTeams, MaxTeamSize) == Some(SizeBelowOne)
    ensures FormatProblemOf(Some([9, 3, 3]), MaxTeams, MaxTeamSize) == Some(SizeTooLarge)
    ensures FormatProblemOf(None, MaxTeams, MaxTeamSize) == Some(Missing)
  {
  }

  // ---------------------------------------------------------------------------
  // The team bot

  const InvalidFormat: string := "Invalid format. Use format like '4:4:2' for team sizes"

  /**
   * `TeamGenerator.parse_team_format`: the pieces as numbers when all are
   * positive.  The inner "must be positive" error is caught and raised
   * again as the one invalid-format message.
   */
  function ParseTeamFormat(formatStr: string): Result<seq<int>> {
    var teams := ParseAll(Split(formatStr, ':'));
    if teams.None? || AnyBelow(teams.value, 1) then Err(InvalidFormat)
    else Ok(teams.value)
  }

  /**
   * The bot accepts what `parse_format` reads when every size is positive,
   * with the same sizes, and refuses with the one message otherwise; so a
   * list `validate_format` accepts is one the bot accepts too.
   */
  lemma TeamFormatAgrees(formatStr: string)
    ensures var r := ParseTeamFormat(formatStr);
      (r.Ok? <==> ParseFormat(formatStr).Some? && forall i :: 0 <= i < |ParseFormat(formatStr).value| ==> ParseFormat(formatStr).value[i] > 0) &&
      (r.Ok? ==> Some(r.value) == ParseFormat(formatStr)) &&
      (r.Err? ==> r.message == InvalidFormat)
    ensures FormatProblemOf(ParseFormat(formatStr), MaxTeams, MaxTeamSize).None? ==> ParseTeamFormat(formatStr).Ok?
  {
  }

  /** Any non-empty list of positive sizes, written out, is read back by the bot unchanged. */
  lemma TeamFormatRoundTrip(sizes: seq<int>)
    requires |sizes| > 0 && forall i :: 0 <= i < |sizes| ==> sizes[i] > 0
    ensures ParseTeamFormat(RenderFormat(sizes)) == Ok(sizes)
  {
    FormatRoundTrip(sizes);
  }

  // ---------------------------------------------------------------------------
  // Splitting members into teams

  /** Where team `i` starts in the shuffled list: the sum of the sizes before it. */
  function Offset(sizes: seq<int>, i: nat): int
    requires i <= |sizes|
  {
    Sum(sizes[..i])
  }

  predicate NonNegative(sizes: seq<int>) {
    forall i :: 0 <= i < |sizes| ==> sizes[i] >= 0
  }

  /** Adding the next size moves the offset on by that size. */
  lemma OffsetStep(sizes: seq<int>, i: nat)
    requires i < |sizes|
    ensures Offset(sizes, i + 1) == Offset(sizes, i) + sizes[i]
  {
    assert sizes[..i + 1][..i] == sizes[..i];
  }

  /** Offsets of non-negative sizes never decrease. */
  lemma {:induction false} OffsetsOrdered(sizes: seq<int>, i: nat, j: nat)
    requires NonNegative(sizes) && i <= j <= |sizes|
    ensures Offset(sizes, i) <= Offset(sizes, j)
  {
    if i < j {
      OffsetsOrdered(sizes, i, j - 1);
      OffsetStep(sizes, j - 1);
    }
  }

  /** Every offset lies between 0 and the total, and team `i` ends where team `i + 1` starts. */
  lemma OffsetsGrow(sizes: seq<int>, i: nat)
    requires NonNegative(sizes) && i <= |sizes|
    ensures 0 <= Offset(sizes, i) <= Sum(sizes)
    ensures i < |sizes| ==> Offset(sizes, i + 1) == Offset(sizes, i) + sizes[i]
  {
    assert sizes[..0] == [];
    OffsetsOrdered(sizes, 0, i);
    OffsetsOrdered(sizes, i, |sizes|);
    assert sizes[..|sizes|] == sizes;
    if i < |sizes| {
      OffsetStep(sizes, i);
    }
  }

  /** Team `i` is the run of `sizes[i]` members that starts at `Offset(sizes, i)`. */
  ghost predicate SliceAt<M>(shuffled: seq<M>, sizes: seq<int>, team: seq<M>, i: nat)
    requires i < |sizes|
  {
    0 <= Offset(sizes, i) <= Offset(sizes, i) + sizes[i] <= |shuffled| &&
    team == shuffled[Offset(sizes, i)..Offset(sizes, i) + sizes[i]]
  }

  ghost predicate ConsecutiveSlices<M>(shuffled: seq<M>, sizes: seq<int>, teams: seq<seq<M>>) {
    |teams| == |sizes| && forall i :: 0 <= i < |sizes| ==> SliceAt(shuffled, sizes, teams[i], i)
  }

  /**
   * `TeamGenerator.create_teams` on a shuffle of the members given as
   * `shuffled`: an error when the sizes need more members than there are,
   * otherwise team `i` is the next `sizes[i]` members of the shuffle, so
   * together the teams are the first `sum(sizes)` of them in order.
   */
  method CreateTeams<M>(members: seq<M>, sizes: seq<int>, shuffled: seq<M>) returns (r: Result<seq<seq<M>>>)
    requires NonNegative(sizes)
    requires multiset(shuffled) == multiset(members)
    ensures r.Err? <==> |members| < Sum(sizes)
    ensures r.Err? ==>
      r.message == "Not enough members! Need " + IntToString(Sum(sizes)) + ", but only " + IntToString(|members|) + " available"
    ensures r.Ok? ==> 0 <= Sum(sizes) <= |shuffled| && ConsecutiveSlices(shuffled, sizes, r.value) && Flatten(r.value) == shuffled[..Sum(sizes)]
  {
    var totalNeeded := Sum(sizes);
    if |members| < totalNeeded {
      return Err("Not enough members! Need " + IntToString(totalNeeded) + ", but only " + IntToString(|members|) + " available");
    }
    assert |shuffled| == |members| by {
      assert |multiset(shuffled)| == |multiset(members)|;
    }
    var teams: seq<seq<M>> := [];
    var currentIndex := 0;
    assert sizes[..0] == [];
    for k := 0 to |sizes|
      invariant |teams| == k
      invariant currentIndex == Offset(sizes, k) && 0 <= currentIndex <= |shuffled|
      invariant Flatten(teams) == shuffled[..currentIndex]
      invariant forall i :: 0 <= i < k ==> SliceAt(shuffled, sizes, teams[i], i)
    {
      OffsetsGrow(sizes, k);
      OffsetsGrow(sizes, k + 1);
      var size := sizes[k];
      var team := shuffled[currentIndex..currentIndex + size];
      assert SliceAt(shuffled, sizes, team, k);
      AppendSlice(shuffled, teams, currentIndex, currentIndex + size);
      teams := teams + [team];
      currentIndex := currentIndex + size;
    }
    assert sizes[..|sizes|] == sizes;
    r := Ok(teams);
  }

  /**
   * The slices never overlap: when the members are all different, no
   * member is in two teams, and every team has exactly its size.
   */
  lemma SlicesDisjoint<M>(shuffled: seq<M>, sizes: seq<int>, teams: seq<seq<M>>, i: nat, j: nat, x: M)
    requires NonNegative(sizes)
    requires ConsecutiveSlices(shuffled, sizes, teams)
    requires forall a, b :: 0 <= a < b < |shuffled| ==> shuffled[a] != shuffled[b]
    requires i < j < |teams|
    ensures |teams[i]| == sizes[i]
    ensures x in teams[i] ==> x !in teams[j]
  {
    OffsetsGrow(sizes, i);
    OffsetsGrow(sizes, i + 1);
    OffsetsGrow(sizes, j);
    OffsetsGrow(sizes, j + 1);
    OffsetsOrdered(sizes, i + 1, j);
  }

  /** The next slice extends the members handed out so far. */
  lemma AppendSlice<M>(xs: seq<M>, teams: seq<seq<M>>, lo: nat, hi: nat)
    requires lo <= hi <= |xs| && Flatten(teams) == xs[..lo]
    ensures Flatten(teams + [xs[lo..hi]]) == xs[..hi]
    ensures forall i :: 0 <= i < |teams| ==> (teams + [xs[lo..hi]])[i] == teams[i]
  {
    var slice := xs[lo..hi];
    var extended := teams + [slice];
    assert Flatten(extended) == Flatten(teams) + slice by {
      assert extended[..|teams|] == teams;
    }
    assert xs[..hi] == xs[..lo] + slice by {
      assert forall k :: 0 <= k < hi ==> xs[..hi][k] == xs[k];
    }
    forall i | 0 <= i < |teams|
      ensures extended[i] == teams[i]
    {
    }
  }
}
