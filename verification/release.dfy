/** The version and changelog logic of scripts/release.py: bumping a
    `major.minor.patch` version, assembling the release body from the four
    unreleased changelog sections, and the flag prechecks of `main`. */
module Release {
  import opened Wrappers
  import opened Strings

  /** The ways the release script stops. */
  datatype ReleaseError =
    | InvalidVersion(version: string)   // `int()` or the three-way unpacking raises `ValueError`
    | NoVersionIncrement                // "No version increment specified"
    | NoChangesFound                    // "Error: No changes found in CHANGELOG.md"
    | ConflictingFlags                  // "Only one of --patch, --minor, or --major can be specified"

  // ---------------------------------------------------------------------------
  // Python's `int(s)` and `str(n)` on base-10 text

  predicate IsDigit(c: char) {
    '0' <= c <= '9'
  }

  predicate AllDigits(s: string) {
    forall i :: 0 <= i < |s| ==> IsDigit(s[i])
  }

  /** Digits, with single underscores allowed between two digits. */
  predicate DigitGroups(s: string) {
    s != [] && IsDigit(s[0]) && IsDigit(s[|s| - 1]) &&
    (forall i :: 0 <= i < |s| ==> IsDigit(s[i]) || s[i] == '_') &&
    (forall i, j :: 0 <= i < |s| && 0 <= j < |s| && j == i + 1 ==> s[i] != '_' || s[j] != '_')
  }

  /** The number the digits of `s` spell, underscores skipped. */
  function DigitsValue(s: string): nat
    decreases |s|
  {
    if s == [] then 0
    else if IsDigit(s[|s| - 1]) then DigitsValue(s[..|s| - 1]) * 10 + (s[|s| - 1] - '0') as int
    else DigitsValue(s[..|s| - 1])
  }

  /** `int(s)`: surrounding whitespace, an optional sign, then digit groups;
      `None` where Python raises `ValueError`. */
  function ParseInt(s: string): Option<int> {
    var t := Strip(s);
    if t != [] && (t[0] == '+' || t[0] == '-') then
      if DigitGroups(t[1..]) then
        var n: int := DigitsValue(t[1..]);
        Some(if t[0] == '-' then -n else n)
      else None
    else if DigitGroups(t) then Some(DigitsValue(t))
    else None
  }

  lemma DigitsAreGroups(s: string)
    requires s != [] && AllDigits(s)
    ensures DigitGroups(s)
  {
  }

  /** Plain digits parse to the number they spell. */
  lemma ParseDigits(s: string)
    requires s != [] && AllDigits(s)
    ensures ParseInt(s) == Some(DigitsValue(s))
  {
    assert IsDigit(s[0]) && IsDigit(s[|s| - 1]);
    StripUnspaced(s);
    DigitsAreGroups(s);
  }

  /** A minus sign before plain digits negates their number. */
  lemma ParseNegative(t: string)
    requires |t| > 1 && t[0] == '-' && AllDigits(t[1..])
    ensures ParseInt(t) == Some(-(DigitsValue(t[1..]) as int))
  {
    assert IsDigit(t[1..][|t| - 2]);
    StripUnspaced(t);
    DigitsAreGroups(t[1..]);
    var u := Strip(t);
    assert u != [] && u[0] == '-';
    assert DigitGroups(u[1..]);
  }

  /** `str(n)` for a natural number: its decimal digits, most significant first. */
  function NatToString(n: nat): (r: string)
    ensures r != [] && AllDigits(r)
    ensures DigitsValue(r) == n
    decreases n
  {
    var d := ['0' + (n % 10) as char];
    if n < 10 then
      assert DigitsValue(d) == n by { assert d[..0] == []; }
      d
    else
      var r := NatToString(n / 10) + d;
      assert r[..|r| - 1] == NatToString(n / 10);
      r
  }

  /** `str(n)` for an integer. */
  function IntToString(n: int): (r: string)
    ensures r != [] && '.' !in r
    ensures n >= 0 ==> AllDigits(r)
  {
    if n < 0 then "-" + NatToString(-n) else NatToString(n)
  }

  /** `int(str(n)) == n`. */
  lemma ParseIntToString(n: int)
    ensures ParseInt(IntToString(n)) == Some(n)
  {
    if n < 0 {
      var d := NatToString(-n);
      assert IntToString(n)[1..] == d;
      ParseNegative(IntToString(n));
    } else {
      ParseDigits(NatToString(n));
    }
  }

  // ---------------------------------------------------------------------------
  // Versions

  datatype Version = Version(major: int, minor: int, patch: int)

  /** `current_version.split(".")` unpacked into three `int`s. */
  function ParseVersion(v: string): (r: Result<Version, ReleaseError>)
    ensures r.Failure? ==> r.error == InvalidVersion(v)
  {
    var parts := Split(v, ".");
    if |parts| != 3 then Failure(InvalidVersion(v))
    else
      match (ParseInt(parts[0]), ParseInt(parts[1]), ParseInt(parts[2]))
      case (Some(major), Some(minor), Some(patch)) => Success(Version(major, minor, patch))
      case _ => Failure(InvalidVersion(v))
  }

  /** `f"{major}.{minor}.{patch}"`. */
  function FormatVersion(v: Version): string {
    Join(".", [IntToString(v.major), IntToString(v.minor), IntToString(v.patch)])
  }

  /** Formatting and parsing again gives the version back. */
  lemma {:induction false} VersionRoundTrip(v: Version)
    ensures ParseVersion(FormatVersion(v)) == Success(v)
  {
    var parts := [IntToString(v.major), IntToString(v.minor), IntToString(v.patch)];
    CharSepCutsCleanly(parts[0], '.');
    CharSepCutsCleanly(parts[1], '.');
    CharSepCutsCleanly(parts[2], '.');
    SplitJoin(parts, ".");
    ParseIntToString(v.major);
    ParseIntToString(v.minor);
    ParseIntToString(v.patch);
  }

  /** The version `get_new_version` aims at: the first set flag among major,
      minor and patch decides; `None` when none is set. */
  function Bumped(v: Version, patch: bool, minor: bool, major: bool): Option<Version> {
    if major then Some(Version(v.major + 1, 0, 0))
    else if minor then Some(Version(v.major, v.minor + 1, 0))
    else if patch then Some(Version(v.major, v.minor, v.patch + 1))
    else None
  }

  /** `get_new_version(current_version, patch, minor, major)`: the version is
      parsed before the flags are looked at. */
  function GetNewVersion(current: string, patch: bool, minor: bool, major: bool): (r: Result<string, ReleaseError>)
    ensures ParseVersion(current).Failure? ==> r == Failure(InvalidVersion(current))
    ensures ParseVersion(current).Success? && !patch && !minor && !major ==> r == Failure(NoVersionIncrement)
    ensures r.Success? <==> ParseVersion(current).Success? && (patch || minor || major)
  {
    var v :- ParseVersion(current);
    match Bumped(v, patch, minor, major)
    case Some(w) => Success(FormatVersion(w))
    case None => Failure(NoVersionIncrement)
  }

  /** A bump reads back as the bumped version: major resets minor and patch,
      minor keeps major and resets patch, patch changes only patch. */
  lemma BumpParsesBack(current: string, patch: bool, minor: bool, major: bool)
    requires GetNewVersion(current, patch, minor, major).Success?
    ensures ParseVersion(GetNewVersion(current, patch, minor, major).value).Success?
    ensures Some(ParseVersion(GetNewVersion(current, patch, minor, major).value).value) ==
      Bumped(ParseVersion(current).value, patch, minor, major)
  {
    VersionRoundTrip(Bumped(ParseVersion(current).value, patch, minor, major).value);
  }

  /** The `\d+\.\d+\.\d+` shape of a version in pyproject.toml. */
  predicate MatchesVersionPattern(v: string) {
    var parts := Split(v, ".");
    |parts| == 3 &&
    parts[0] != [] && AllDigits(parts[0]) &&
    parts[1] != [] && AllDigits(parts[1]) &&
    parts[2] != [] && AllDigits(parts[2])
  }

  /** A version of the pattern's shape parses to natural numbers. */
  lemma PatternParses(current: string)
    requires MatchesVersionPattern(current)
    ensures ParseVersion(current).Success?
    ensures var v := ParseVersion(current).value; v.major >= 0 && v.minor >= 0 && v.patch >= 0
  {
    var parts := Split(current, ".");
    ParseDigits(parts[0]);
    ParseDigits(parts[1]);
    ParseDigits(parts[2]);
  }

  /** Formatting natural numbers gives the pattern's shape. */
  lemma {:induction false} FormatMatchesPattern(w: Version)
    requires w.major >= 0 && w.minor >= 0 && w.patch >= 0
    ensures MatchesVersionPattern(FormatVersion(w))
  {
    var parts := [IntToString(w.major), IntToString(w.minor), IntToString(w.patch)];
    CharSepCutsCleanly(parts[0], '.');
    CharSepCutsCleanly(parts[1], '.');
    CharSepCutsCleanly(parts[2], '.');
    SplitJoin(parts, ".");
  }

  /** From a version of the pattern's shape, every bump succeeds and again
      has that shape. */
  lemma BumpKeepsPattern(current: string, patch: bool, minor: bool, major: bool)
    requires MatchesVersionPattern(current) && (patch || minor || major)
    ensures GetNewVersion(current, patch, minor, major).Success?
    ensures MatchesVersionPattern(GetNewVersion(current, patch, minor, major).value)
  {
    PatternParses(current);
    var w := Bumped(ParseVersion(current).value, patch, minor, major).value;
    FormatMatchesPattern(w);
  }

  /** A version of single digits formats as `d.d.d`. */
  lemma FormatSingleDigits(v: Version)
    requires 0 <= v.major < 10 && 0 <= v.minor < 10 && 0 <= v.patch < 10
    ensures FormatVersion(v) == ['0' + v.major as char, '.', '0' + v.minor as char, '.', '0' + v.patch as char]
  {
    var a, b, c := '0' + v.major as char, '0' + v.minor as char, '0' + v.patch as char;
    assert IntToString(v.major) == [a] && IntToString(v.minor) == [b] && IntToString(v.patch) == [c];
    var parts := [[a], [b], [c]];
    assert parts[1..] == [[b], [c]] && parts[1..][1..] == [[c]];
    assert Join(".", parts[1..]) == [b, '.', c];
  }

  /** The three bumps on a concrete version, and the missing flag. */
  lemma BumpExamples()
    ensures GetNewVersion("1.2.3", false, false, true) == Success("2.0.0")
    ensures GetNewVersion("1.2.3", false, true, false) == Success("1.3.0")
    ensures GetNewVersion("1.2.3", true, false, false) == Success("1.2.4")
    ensures GetNewVersion("1.2.3", false, false, false) == Failure(NoVersionIncrement)
  {
    FormatSingleDigits(Version(1, 2, 3));
    VersionRoundTrip(Version(1, 2, 3));
    FormatSingleDigits(Version(2, 0, 0));
    FormatSingleDigits(Version(1, 3, 0));
    FormatSingleDigits(Version(1, 2, 4));
  }

  // ---------------------------------------------------------------------------
  // The release body of `write_changelog`

  /** The four groups the unreleased-section pattern captures. */
  datatype UnreleasedChanges = UnreleasedChanges(fixed: string, added: string, changed: string, removed: string)

  /** A changelog section: its title and its stripped content. */
  datatype Section = Section(title: string, content: string)

  /** The sections in their fixed order, contents stripped. */
  function StrippedSections(u: UnreleasedChanges): (r: seq<Section>)
    ensures |r| == 4
  {
    [Section("Fixed", Strip(u.fixed)), Section("Added", Strip(u.added)),
     Section("Changed", Strip(u.changed)), Section("Removed", Strip(u.removed))]
  }

  /** `f"### {title}\n\n{content}"`. */
  function RenderSection(s: Section): string {
    "### " + s.title + "\n\n" + s.content
  }

  /** The rendering of the sections whose content is non-empty, in order. */
  function RenderNonEmpty(sections: seq<Section>): (r: seq<string>)
    ensures |r| <= |sections|
    ensures r == [] <==> forall i :: 0 <= i < |sections| ==> sections[i].content == ""
  {
    if sections == [] then []
    else
      var rest := RenderNonEmpty(sections[1..]);
      assert forall i :: 1 <= i < |sections| ==> sections[i] == sections[1..][i - 1];
      if sections[0].content != "" then [RenderSection(sections[0])] + rest else rest
  }

  /** The body of the new release: the non-empty sections in the order Fixed,
      Added, Changed, Removed, separated by a blank line; fails when every
      section is blank. */
  function ReleaseBody(u: UnreleasedChanges): (r: Result<string, ReleaseError>)
    ensures r.Failure? <==> AllSpace(u.fixed) && AllSpace(u.added) && AllSpace(u.changed) && AllSpace(u.removed)
    ensures r.Failure? ==> r.error == NoChangesFound
  {
    StripEmpty(u.fixed); StripEmpty(u.added); StripEmpty(u.changed); StripEmpty(u.removed);
    if Strip(u.fixed) == [] && Strip(u.added) == [] && Strip(u.changed) == [] && Strip(u.removed) == [] then
      Failure(NoChangesFound)
    else
      Success(Join("\n\n", RenderNonEmpty(StrippedSections(u))))
  }

  /** Rendering a sequence of sections, one section at a time. */
  lemma RenderFirst(first: Section, rest: seq<Section>)
    ensures RenderNonEmpty([first] + rest) == Kept(first) + RenderNonEmpty(rest)
  {
    assert ([first] + rest)[1..] == rest;
  }

  lemma JoinFour(sep: string, a: string, b: string, c: string, d: string)
    ensures Join(sep, [a, b, c, d]) == a + sep + b + sep + c + sep + d
  {
    var r := [a, b, c, d];
    assert r[1..] == [b, c, d] && r[1..][1..] == [c, d] && r[1..][1..][1..] == [d];
    var cd := c + sep + d;
    assert Join(sep, [c, d]) == cd;
    var bcd := b + sep + cd;
    assert Join(sep, [b, c, d]) == bcd;
    assert Join(sep, r) == a + sep + bcd;
    assert b + sep + cd == b + sep + c + sep + d;
    assert a + sep + bcd == a + sep + (b + sep + c + sep + d);
  }

  /** When every section has content, the body lists all four in order,
      separated by blank lines. */
  lemma AllSectionsInOrder(u: UnreleasedChanges)
    requires Strip(u.fixed) != [] && Strip(u.added) != [] && Strip(u.changed) != [] && Strip(u.removed) != []
    ensures ReleaseBody(u) == Success(
      RenderSection(Section("Fixed", Strip(u.fixed))) + "\n\n" +
      RenderSection(Section("Added", Strip(u.added))) + "\n\n" +
      RenderSection(Section("Changed", Strip(u.changed))) + "\n\n" +
      RenderSection(Section("Removed", Strip(u.removed))))
  {
    var a, b, c, d := Section("Fixed", Strip(u.fixed)), Section("Added", Strip(u.added)),
      Section("Changed", Strip(u.changed)), Section("Removed", Strip(u.removed));
    RenderFour(a, b, c, d);
    var r := [RenderSection(a), RenderSection(b), RenderSection(c), RenderSection(d)];
    assert RenderNonEmpty(StrippedSections(u)) == r;
    JoinFour("\n\n", r[0], r[1], r[2], r[3]);
  }

  /** The rendering of one section when it has content, nothing otherwise. */
  function Kept(s: Section): (r: seq<string>)
    ensures r == [] <==> s.content == ""
  {
    if s.content != "" then [RenderSection(s)] else []
  }

  /** Rendering four sections keeps each one exactly when it has content. */
  lemma RenderFour(a: Section, b: Section, c: Section, d: Section)
    ensures RenderNonEmpty([a, b, c, d]) == Kept(a) + (Kept(b) + (Kept(c) + Kept(d)))
  {
    assert [a, b, c, d] == [a] + [b, c, d];
    assert [b, c, d] == [b] + [c, d];
    assert [c, d] == [c] + [d];
    assert [d] == [d] + [];
    RenderFirst(d, []);
    var rd := Kept(d);
    RenderFirst(c, [d]);
    var rcd := Kept(c) + rd;
    assert RenderNonEmpty([c, d]) == rcd;
    RenderFirst(b, [c, d]);
    var rbcd := Kept(b) + rcd;
    assert RenderNonEmpty([b, c, d]) == rbcd;
    RenderFirst(a, [b, c, d]);
    assert RenderNonEmpty([a, b, c, d]) == Kept(a) + rbcd;
  }

  /** Whatever the combination of blank sections, the body lists exactly the
      sections with content, in the order Fixed, Added, Changed, Removed,
      separated by blank lines. */
  lemma BlankSectionsLeftOut(u: UnreleasedChanges)
    requires ReleaseBody(u).Success?
    ensures ReleaseBody(u) == Success(Join("\n\n",
      Kept(Section("Fixed", Strip(u.fixed))) + (Kept(Section("Added", Strip(u.added))) +
      (Kept(Section("Changed", Strip(u.changed))) + Kept(Section("Removed", Strip(u.removed)))))))
  {
    RenderFour(Section("Fixed", Strip(u.fixed)), Section("Added", Strip(u.added)),
      Section("Changed", Strip(u.changed)), Section("Removed", Strip(u.removed)));
  }

  /** For instance, with only Fixed and Removed filled in, the body is those
      two. */
  lemma FixedAndRemovedOnly(u: UnreleasedChanges)
    requires Strip(u.fixed) != [] && Strip(u.added) == [] && Strip(u.changed) == [] && Strip(u.removed) != []
    ensures ReleaseBody(u) == Success(
      RenderSection(Section("Fixed", Strip(u.fixed))) + "\n\n" +
      RenderSection(Section("Removed", Strip(u.removed))))
  {
    StripEmpty(u.fixed);
    BlankSectionsLeftOut(u);
    var r := [RenderSection(Section("Fixed", Strip(u.fixed))), RenderSection(Section("Removed", Strip(u.removed)))];
    assert r[1..] == [r[1]];
  }

  // ---------------------------------------------------------------------------
  // Flag prechecks of `main`

  datatype Flags = Flags(patch: bool, minor: bool, major: bool)

  /** `sum([args.patch, args.minor, args.major])`. */
  function FlagCount(f: Flags): nat {
    (if f.patch then 1 else 0) + (if f.minor then 1 else 0) + (if f.major then 1 else 0)
  }

  /** No flag defaults to `--patch`; more than one flag is an error. */
  function Precheck(f: Flags): (r: Result<Flags, ReleaseError>)
    ensures r.Success? ==> FlagCount(r.value) == 1
    ensures r.Failure? <==> FlagCount(f) > 1
    ensures r.Failure? ==> r.error == ConflictingFlags
    ensures FlagCount(f) == 0 ==> r == Success(Flags(true, false, false))
    ensures FlagCount(f) == 1 ==> r == Success(f)
  {
    if !f.patch && !f.minor && !f.major then Success(Flags(true, false, false))
    else if FlagCount(f) > 1 then Failure(ConflictingFlags)
    else Success(f)
  }

  /** After the prechecks, bumping a version of the pattern's shape never
      reports a missing increment. */
  lemma PrecheckedBumpSucceeds(f: Flags, current: string)
    requires Precheck(f).Success? && MatchesVersionPattern(current)
    ensures var g := Precheck(f).value;
      GetNewVersion(current, g.patch, g.minor, g.major).Success?
  {
    var g := Precheck(f).value;
    BumpKeepsPattern(current, g.patch, g.minor, g.major);
  }
}
