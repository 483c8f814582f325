/**
 * Version management (`version.py`): the version record kept in
 * `VERSION.json`, its display string, the four kinds of bump, and the
 * insertion of a new entry into `CHANGES.md` right after its header.
 * The two files are fields of the manager; the clock is a parameter.
 */
module Version {

  import opened Common
  import opened Text

  /** The contents of `VERSION.json`. */
  datatype VersionInfo = VersionInfo(major: int, minor: int, patch: int, build: int, lastUpdated: string, description: string)

  /** What `get_version_info` returns when there is no version file yet. */
  function DefaultVersion(now: string): (info: VersionInfo)
    ensures (info.major, info.minor, info.patch, info.build) == (1, 0, 0, 1)
    ensures info.lastUpdated == now && info.description == "Initial release"
  {
    VersionInfo(1, 0, 0, 1, now, "Initial release")
  }

  // ---------------------------------------------------------------------------
  // The version string

  /** The four dot-separated pieces of a version string. */
  function VersionPieces(info: VersionInfo): seq<string> {
    ["v" + IntToString(info.major), IntToString(info.minor), IntToString(info.patch) + "-build", IntToString(info.build)]
  }

  /** `get_version_string`: `v{major}.{minor}.{patch}-build.{build}`. */
  function VersionString(info: VersionInfo): string {
    "v" + IntToString(info.major) + "." + IntToString(info.minor) + "." + IntToString(info.patch) + "-build." + IntToString(info.build)
  }

  /** Reads the four numbers back from a version string; `None` for anything else. */
  function ParseVersionString(s: string): Option<(int, int, int, int)> {
    var pieces := Split(s, '.');
    if |pieces| != 4 || |pieces[0]| == 0 || pieces[0][0] != 'v' then None
    else
      var patchPieces := Split(pieces[2], '-');
      if |patchPieces| != 2 || patchPieces[1] != "build" then None
      else
        var major := ParseInt(pieces[0][1..]);
        var minor := ParseInt(pieces[1]);
        var patch := ParseInt(patchPieces[0]);
        var build := ParseInt(pieces[3]);
        if major.None? || minor.None? || patch.None? || build.None? then None
        else Some((major.value, minor.value, patch.value, build.value))
  }

  /** A decimal natural number holds neither `'.'` nor `'-'`. */
  lemma NoSeparators(n: int)
    requires n >= 0
    ensures '.' !in IntToString(n) && '-' !in IntToString(n)
  {
    var s := IntToString(n);
    assert s == NatToString(n);
    assert forall i :: 0 <= i < |s| ==> IsDigit(s[i]);
  }

  lemma VersionStringIsJoin(info: VersionInfo)
    ensures VersionString(info) == Join(VersionPieces(info), '.')
  {
    var pieces := VersionPieces(info);
    assert Join(pieces[3..], '.') == pieces[3];
    assert Join(pieces[2..], '.') == pieces[2] + "." + pieces[3];
    assert Join(pieces[1..], '.') == pieces[1] + "." + pieces[2] + "." + pieces[3];
  }

  /** The third piece splits at its dash into the patch number and `build`. */
  lemma PatchPiece(patch: int)
    requires patch >= 0
    ensures Split(IntToString(patch) + "-build", '-') == [IntToString(patch), "build"]
  {
    var digits := IntToString(patch);
    NoSeparators(patch);
    var parts := [digits, "build"];
    assert '-' !in "build";
    assert Join(parts[1..], '-') == "build";
    assert Join(parts, '-') == digits + "-build";
    SplitJoin(parts, '-');
  }

  /**
   * For non-negative numbers the version string gives the four numbers
   * back, so two versions with the same string agree on all four.
   */
  lemma VersionStringRoundTrip(info: VersionInfo)
    requires info.major >= 0 && info.minor >= 0 && info.patch >= 0 && info.build >= 0
    ensures ParseVersionString(VersionString(info)) == Some((info.major, info.minor, info.patch, info.build))
  {
    var pieces := VersionPieces(info);
    NoSeparators(info.major);
    NoSeparators(info.minor);
    NoSeparators(info.patch);
    NoSeparators(info.build);
    var major := IntToString(info.major);
    assert '.' !in "v" + major;
    assert '.' !in IntToString(info.patch) + "-build";
    VersionStringIsJoin(info);
    SplitJoin(pieces, '.');
    assert ("v" + major)[1..] == major;
    PatchPiece(info.patch);
    ParseIntToString(info.major);
    ParseIntToString(info.minor);
    ParseIntToString(info.patch);
    ParseIntToString(info.build);
  }

  /** Two versions of non-negative numbers with the same string have the same numbers. */
  lemma VersionStringInjective(a: VersionInfo, b: VersionInfo)
    requires a.major >= 0 && a.minor >= 0 && a.patch >= 0 && a.build >= 0
    requires b.major >= 0 && b.minor >= 0 && b.patch >= 0 && b.build >= 0
    requires VersionString(a) == VersionString(b)
    ensures (a.major, a.minor, a.patch, a.build) == (b.major, b.minor, b.patch, b.build)
  {
    VersionStringRoundTrip(a);
    VersionStringRoundTrip(b);
  }

  // ---------------------------------------------------------------------------
  // Bumping

  /** The four bump types `increment_version` accepts. */
  datatype Bump = Major | Minor | Patch | Build

  /** The bump a `version_type` argument names, if any. */
  function BumpOf(versionType: string): (b: Option<Bump>)
    ensures b.Some? <==> versionType in ["major", "minor", "patch", "build"]
  {
    if versionType == "major" then Some(Major)
    else if versionType == "minor" then Some(Minor)
    else if versionType == "patch" then Some(Patch)
    else if versionType == "build" then Some(Build)
    else None
  }

  /** The version numbers after a bump, with the new time and description. */
  function Bumped(info: VersionInfo, bump: Bump, description: string, now: string): VersionInfo {
    var numbers := match bump
      case Major => info.(major := info.major + 1, minor := 0, patch := 0, build := 1)
      case Minor => info.(minor := info.minor + 1, patch := 0, build := 1)
      case Patch => info.(patch := info.patch + 1, build := 1)
      case Build => info.(build := info.build + 1);
    numbers.(lastUpdated := now, description := description)
  }

  /** What `increment_version` makes of the version record: an error for an unknown bump type. */
  function Incremented(info: VersionInfo, versionType: string, description: string, now: string): Result<VersionInfo> {
    match BumpOf(versionType)
    case None => Err("Invalid version type: " + versionType)
    case Some(bump) => Ok(Bumped(info, bump, description, now))
  }

  /** `(major, minor, patch, build)` of `a` comes before that of `b` in dictionary order. */
  predicate Earlier(a: VersionInfo, b: VersionInfo) {
    a.major < b.major ||
    (a.major == b.major && (a.minor < b.minor ||
      (a.minor == b.minor && (a.patch < b.patch ||
        (a.patch == b.patch && a.build < b.build)))))
  }

  /**
   * Every bump moves the version strictly forward; a build bump only adds
   * one to the build, every other bump starts again at build 1 and resets
   * the numbers below the one it raises.
   */
  lemma BumpRules(info: VersionInfo, bump: Bump, description: string, now: string)
    requires info.build >= 0
    ensures var after := Bumped(info, bump, description, now);
      Earlier(info, after) && after.description == description && after.lastUpdated == now &&
      (bump != Build ==> after.build == 1) &&
      (bump == Major ==> (after.major, after.minor, after.patch) == (info.major + 1, 0, 0)) &&
      (bump == Minor ==> (after.major, after.minor, after.patch) == (info.major, info.minor + 1, 0)) &&
      (bump == Patch ==> (after.major, after.minor, after.patch) == (info.major, info.minor, info.patch + 1)) &&
      (bump == Build ==>
        (after.major, after.minor, after.patch, after.build) == (info.major, info.minor, info.patch, info.build + 1))
  {
  }

  /** An unknown bump type is refused with its name in the message; the four known ones succeed. */
  lemma IncrementedRefusesUnknown(info: VersionInfo, versionType: string, description: string, now: string)
    ensures var r := Incremented(info, versionType, description, now);
      (r.Err? <==> versionType !in ["major", "minor", "patch", "build"]) &&
      (r.Err? ==> r.message == "Invalid version type: " + versionType)
  {
  }

  /**
   * Without a version file the first bump starts from 1.0.0 build 1: a major
   * bump gives 2.0.0 build 1, a minor 1.1.0 build 1, a patch 1.0.1 build 1
   * and a build bump 1.0.0 build 2; the record takes the new time and
   * description.
   */
  lemma DefaultBumps(now: string, description: string, later: string)
    ensures Incremented(DefaultVersion(now), "major", description, later) == Ok(VersionInfo(2, 0, 0, 1, later, description))
    ensures Incremented(DefaultVersion(now), "minor", description, later) == Ok(VersionInfo(1, 1, 0, 1, later, description))
    ensures Incremented(DefaultVersion(now), "patch", description, later) == Ok(VersionInfo(1, 0, 1, 1, later, description))
    ensures Incremented(DefaultVersion(now), "build", description, later) == Ok(VersionInfo(1, 0, 0, 2, later, description))
  {
  }

  /** Bumps never go backwards, so a version string is never reused. */
  lemma BumpChangesString(info: VersionInfo, bump: Bump, description: string, now: string)
    requires info.major >= 0 && info.minor >= 0 && info.patch >= 0 && info.build >= 0
    ensures VersionString(Bumped(info, bump, description, now)) != VersionString(info)
  {
    var after := Bumped(info, bump, description, now);
    BumpRules(info, bump, description, now);
    if VersionString(after) == VersionString(info) {
      VersionStringInjective(after, info);
    }
  }

  // ---------------------------------------------------------------------------
  // The changelog

  const DefaultChangelog: string :=
    "# HP2BR Discord Bot - Change Log\n\nThis file tracks all changes and version updates for the HP2BR Discord Bot system.\n\n---\n\n"

  /** The entry `_update_changelog` writes for a version. */
  function ChangelogEntry(info: VersionInfo, description: string, date: string): string {
    "## " + VersionString(info) + " - " + date + "\n\n### Changes\n- " + description +
    "\n\n### Technical Details\n- Build: " + IntToString(info.build) + "\n- Updated: " + info.lastUpdated + "\n\n---\n\n"
  }

  predicate NotRule(line: string) {
    Strip(line) != "---"
  }

  /** For each line, whether it strips to `---`. */
  function RuleMarks(lines: seq<string>): (marks: seq<bool>)
    ensures |marks| == |lines|
  {
    if |lines| == 0 then [] else [!NotRule(lines[0])] + RuleMarks(lines[1..])
  }

  lemma {:induction false} RuleMarksMeaning(lines: seq<string>, i: nat)
    requires i < |lines|
    ensures RuleMarks(lines)[i] == !NotRule(lines[i])
  {
    if i > 0 {
      RuleMarksMeaning(lines[1..], i - 1);
    }
  }

  /** One past the first marked position from `i` on, or 0 when there is none. */
  function MarkFrom(marks: seq<bool>, i: nat): (k: nat)
    requires 1 <= i <= |marks|
    ensures k == 0 <==> forall j :: i <= j < |marks| ==> !marks[j]
    ensures k > 0 ==> i < k <= |marks| && marks[k - 1] && forall j :: i <= j < k - 1 ==> !marks[j]
    decreases |marks| - i
  {
    if i == |marks| then 0
    else if marks[i] then i + 1
    else MarkFrom(marks, i + 1)
  }

  /**
   * `header_end`: one past the first line after the first that strips to
   * `---`, or 0 when there is none.
   */
  function HeaderEnd(lines: seq<string>): (headerEnd: nat)
    ensures headerEnd == 0 ==> forall i :: 0 < i < |lines| ==> !RuleMarks(lines)[i]
    ensures (forall i :: 0 < i < |lines| ==> !RuleMarks(lines)[i]) ==> headerEnd == 0
    ensures headerEnd > 0 ==>
      2 <= headerEnd <= |lines| && RuleMarks(lines)[headerEnd - 1] &&
      forall i :: 0 < i < headerEnd - 1 ==> !RuleMarks(lines)[i]
  {
    var marks := RuleMarks(lines);
    if |marks| == 0 then 0
    else
      MarkFrom(marks, 1)
  }

  /** `HeaderEnd` in terms of the lines themselves. */
  lemma HeaderEndMeaning(lines: seq<string>)
    ensures HeaderEnd(lines) == 0 <==> forall i :: 0 < i < |lines| ==> NotRule(lines[i])
    ensures HeaderEnd(lines) > 0 ==>
      2 <= HeaderEnd(lines) <= |lines| && !NotRule(lines[HeaderEnd(lines) - 1]) &&
      forall i :: 0 < i < HeaderEnd(lines) - 1 ==> NotRule(lines[i])
  {
    forall i | 0 <= i < |lines|
      ensures RuleMarks(lines)[i] == !NotRule(lines[i])
    {
      RuleMarksMeaning(lines, i);
    }
  }

  /**
   * One step of the header search: with no rule line among lines 1 to
   * `i - 1`, line `i` either is the first one (when `i > 0`), or the search
   * goes on past it.
   */
  lemma HeaderEndStep(lines: seq<string>, i: nat)
    requires i < |lines|
    requires HeaderEnd(lines) == 0 || HeaderEnd(lines) > i
    ensures i > 0 && !NotRule(lines[i]) ==> HeaderEnd(lines) == i + 1
    ensures i == 0 || NotRule(lines[i]) ==> HeaderEnd(lines) == 0 || HeaderEnd(lines) > i + 1
  {
    RuleMarksMeaning(lines, i);
  }

  /** The loop of `_update_changelog` that looks for the end of the header. */
  method FindHeaderEnd(lines: seq<string>) returns (headerEnd: nat)
    ensures headerEnd == HeaderEnd(lines)
  {
    headerEnd := 0;
    var i := 0;
    while i < |lines|
      invariant 0 <= i <= |lines|
      invariant HeaderEnd(lines) == 0 || HeaderEnd(lines) > i
    {
      HeaderEndStep(lines, i);
      if Strip(lines[i]) == "---" && i > 0 {
        headerEnd := i + 1;
        return;
      }
      i := i + 1;
    }
  }

  /** The changelog text once `entry` is inserted after its header. */
  function InsertEntry(existing: string, entry: string): string {
    var lines := Split(existing, '\n');
    var headerEnd := HeaderEnd(lines);
    if headerEnd == 0 then existing + entry
    else Join(lines[..headerEnd], '\n') + "\n" + entry + Join(lines[headerEnd..], '\n')
  }

  /** Joining two non-empty runs of lines puts one separator between them. */
  lemma {:induction false} JoinAppend(a: seq<string>, b: seq<string>, sep: char)
    requires |a| > 0 && |b| > 0
    ensures Join(a + b, sep) == Join(a, sep) + [sep] + Join(b, sep)
  {
    if |a| == 1 {
      assert (a + b)[1..] == b;
    } else {
      JoinAppend(a[1..], b, sep);
      assert (a + b)[1..] == a[1..] + b;
    }
  }

  /** Without a `---` line below the first line, the entry is appended. */
  lemma ChangelogAppend(existing: string, entry: string)
    requires HeaderEnd(Split(existing, '\n')) == 0
    ensures InsertEntry(existing, entry) == existing + entry
  {
  }

  /** Cutting a run of lines after `headerEnd` of them: the header, with its newline, then the rest. */
  lemma CutLines(lines: seq<string>, headerEnd: nat)
    requires 0 < headerEnd <= |lines|
    requires forall i :: 0 <= i < |lines| ==> '\n' !in lines[i]
    ensures var header := Join(lines[..headerEnd], '\n') + "\n";
      var rest := Join(lines[headerEnd..], '\n');
      (headerEnd < |lines| ==> Join(lines, '\n') == header + rest) &&
      (headerEnd == |lines| ==> header == Join(lines, '\n') + "\n" && rest == "") &&
      Split(header[..|header| - 1], '\n') == lines[..headerEnd]
  {
    var front := lines[..headerEnd];
    SplitJoin(front, '\n');
    var header := Join(front, '\n') + "\n";
    assert header[..|header| - 1] == Join(front, '\n');
    if headerEnd < |lines| {
      assert lines == front + lines[headerEnd..];
      JoinAppend(front, lines[headerEnd..], '\n');
    } else {
      assert front == lines;
      assert lines[headerEnd..] == [];
    }
  }

  /**
   * Otherwise the entry lands right after the first `---` line below the
   * first line (`HeaderEndMeaning`), and the old text is kept around it:
   * `header` is the first `headerEnd` lines with their newlines, and the
   * new text is the header, the entry, then the rest of the old text.  When
   * that line is the last one, the header is the old text plus a newline.
   */
  lemma ChangelogSplice(existing: string, entry: string, headerEnd: nat)
    requires headerEnd == HeaderEnd(Split(existing, '\n')) > 0
    ensures var lines := Split(existing, '\n');
      var header := Join(lines[..headerEnd], '\n') + "\n";
      var rest := Join(lines[headerEnd..], '\n');
      InsertEntry(existing, entry) == header + entry + rest &&
      (headerEnd < |lines| ==> existing == header + rest) &&
      (headerEnd == |lines| ==> header == existing + "\n" && rest == "") &&
      Split(header[..|header| - 1], '\n') == lines[..headerEnd]
  {
    CutLines(Split(existing, '\n'), headerEnd);
  }

  /** The bot's version record and change log, as the two files hold them. */
  class VersionManager {
    /** `VERSION.json`: `None` while the file does not exist. */
    var versionFile: Option<VersionInfo>
    /** `CHANGES.md`: `None` while the file does not exist. */
    var changesFile: Option<string>

    constructor(versionFile: Option<VersionInfo>, changesFile: Option<string>)
      ensures this.versionFile == versionFile && this.changesFile == changesFile
    {
      this.versionFile := versionFile;
      this.changesFile := changesFile;
    }

    /** `get_version_info`: the stored record, or the default when there is none. */
    function VersionInfoAt(now: string): VersionInfo
      reads this
    {
      if versionFile.Some? then versionFile.value else DefaultVersion(now)
    }

    /**
     * `increment_version`: on an unknown bump type nothing is written;
     * otherwise the bumped record is saved, its entry inserted into the
     * change log (or a new one), and the saved record's string returned.
     */
    method IncrementVersion(versionType: string, description: string, now: string, date: string) returns (r: Result<string>)
      modifies this
      ensures var result := Incremented(old(VersionInfoAt(now)), versionType, description, now);
        (result.Err? ==> r == Err(result.message) && versionFile == old(versionFile) && changesFile == old(changesFile)) &&
        (result.Ok? ==>
          versionFile == Some(result.value) &&
          changesFile == Some(InsertEntry(old(changesFile).GetOr(DefaultChangelog), ChangelogEntry(result.value, description, date))) &&
          r == Ok(VersionString(result.value)))
    {
      var info := VersionInfoAt(now);
      ghost var start := info;
      var bump := BumpOf(versionType);
      if bump.None? {
        return Err("Invalid version type: " + versionType);
      }
      match bump.value {
        case Major => info := info.(major := info.major + 1, minor := 0, patch := 0, build := 1);
        case Minor => info := info.(minor := info.minor + 1, patch := 0, build := 1);
        case Patch => info := info.(patch := info.patch + 1, build := 1);
        case Build => info := info.(build := info.build + 1);
      }
      info := info.(lastUpdated := now, description := description);
      assert Incremented(start, versionType, description, now) == Ok(info);
      versionFile := Some(info);
      UpdateChangelog(info, description, date);
      r := Ok(VersionString(VersionInfoAt(now)));
    }

    /** `_update_changelog`: read the log (or the default header), insert the entry, write it back. */
    method UpdateChangelog(info: VersionInfo, description: string, date: string)
      modifies this
      ensures versionFile == old(versionFile)
      ensures changesFile == Some(InsertEntry(old(changesFile).GetOr(DefaultChangelog), ChangelogEntry(info, description, date)))
    {
      var newEntry := ChangelogEntry(info, description, date);
      var existing := if changesFile.Some? then changesFile.value else DefaultChangelog;
      var lines := Split(existing, '\n');
      var headerEnd := FindHeaderEnd(lines);
      var newContent;
      if headerEnd == 0 {
        newContent := existing + newEntry;
      } else {
        newContent := Join(lines[..headerEnd], '\n') + "\n" + newEntry + Join(lines[headerEnd..], '\n');
      }
      changesFile := Some(newContent);
    }
  }
}
