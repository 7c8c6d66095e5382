/** The release-notes page of scripts/mkdocs_generate_release_notes.py: the
    changelog is cut at its `## ` headings, the Unreleased section is checked
    and dropped, and every released section is re-headed and stripped. */
module ReleaseNotes {
  import opened Wrappers
  import opened Strings

  /** The text that starts a second-level heading on a new line. */
  const HeadingBreak: string := "\n## "

  /** The ways `get_releases` raises. */
  datatype NotesError =
    | NoSections        // `pop(0)` on an empty list: the changelog has no `## ` heading
    | UnexpectedFormat  // the first section is not the Unreleased one

  /** Every section with its text stripped and `## ` put back in front. */
  function Headed(sections: seq<string>): (r: seq<string>)
    ensures |r| == |sections|
    ensures forall i :: 0 <= i < |sections| ==> r[i] == "## " + Strip(sections[i])
  {
    seq(|sections|, i requires 0 <= i < |sections| => "## " + Strip(sections[i]))
  }

  /** `get_releases()` on the changelog's text. */
  function GetReleases(changelog: string): (r: Result<string, NotesError>)
    ensures r.Failure? <==>
      |Split(changelog, HeadingBreak)| < 2 || !StartsWith(Split(changelog, HeadingBreak)[1], "[Unreleased]")
    ensures r.Failure? ==>
      (r.error == NoSections <==> |Split(changelog, HeadingBreak)| < 2)
  {
    var sections := Split(changelog, HeadingBreak)[1..];
    if sections == [] then Failure(NoSections)
    else if !StartsWith(sections[0], "[Unreleased]") then Failure(UnexpectedFormat)
    else Success(Join("\n\n", Headed(sections[1..])))
  }

  /** The page `main` writes: a title, the releases, a final newline. */
  function ReleaseNotesPage(changelog: string): (r: Result<string, NotesError>)
    ensures r.Success? <==> GetReleases(changelog).Success?
    ensures r.Failure? ==> r.error == GetReleases(changelog).error
    ensures r.Success? ==> |r.value| == |"# Release Notes\n\n"| + |GetReleases(changelog).value| + 1
    ensures r.Success? ==>
      StartsWith(r.value, "# Release Notes\n\n") && EndsWith(r.value, "\n") &&
      r.value[|"# Release Notes\n\n"|..|r.value| - 1] == GetReleases(changelog).value
  {
    var releases :- GetReleases(changelog);
    var page := "# Release Notes\n\n" + releases + "\n";
    assert page[|"# Release Notes\n\n"|..|page| - 1] == releases;
    Success(page)
  }

  /** A changelog without any `## ` heading after a newline makes the script
      fail before any check. */
  lemma NoHeadingFails(changelog: string)
    requires !Occurs(changelog, HeadingBreak)
    ensures GetReleases(changelog) == Failure(NoSections)
  {
    assert forall j :: 0 <= j ==> !OccursAt(changelog, HeadingBreak, j);
    assert Split(changelog, HeadingBreak) == [changelog];
  }

  /** A changelog whose first section is not the Unreleased one is refused,
      whatever follows it. */
  lemma WrongFirstSectionFails(preamble: string, first: string, rest: string)
    requires CutsCleanly(preamble, HeadingBreak) && CutsCleanly(first, HeadingBreak)
    requires !StartsWith(first, "[Unreleased]")
    ensures GetReleases(preamble + HeadingBreak + first + HeadingBreak + rest) == Failure(UnexpectedFormat)
  {
    SplitAfter(first, HeadingBreak, rest);
    SplitAfter(preamble, HeadingBreak, first + HeadingBreak + rest);
    assert preamble + HeadingBreak + first + HeadingBreak + rest == preamble + HeadingBreak + (first + HeadingBreak + rest);
  }

  /** Splitting the changelog back into what it was joined from: the preamble
      before the first heading is ignored, the Unreleased section is dropped,
      and the releases come out in their order, each stripped and re-headed. */
  lemma {:induction false} ReleasesRoundTrip(preamble: string, unreleased: string, releases: seq<string>)
    requires StartsWith(unreleased, "[Unreleased]")
    requires CutsCleanly(preamble, HeadingBreak)
    requires releases == [] ==> !Occurs(unreleased, HeadingBreak)
    requires releases != [] ==> CutsCleanly(unreleased, HeadingBreak)
    requires forall k :: 0 <= k < |releases| - 1 ==> CutsCleanly(releases[k], HeadingBreak)
    requires releases != [] ==> !Occurs(releases[|releases| - 1], HeadingBreak)
    ensures GetReleases(Join(HeadingBreak, [preamble, unreleased] + releases)) ==
      Success(Join("\n\n", Headed(releases)))
  {
    var parts := [preamble, unreleased] + releases;
    assert forall k :: 2 <= k < |parts| ==> parts[k] == releases[k - 2];
    SplitJoin(parts, HeadingBreak);
    assert parts[1..][1..] == releases;
  }

  /** A changelog holding nothing but the Unreleased section gives no
      releases at all. */
  lemma OnlyUnreleasedIsEmpty(preamble: string, unreleased: string)
    requires StartsWith(unreleased, "[Unreleased]")
    requires CutsCleanly(preamble, HeadingBreak) && !Occurs(unreleased, HeadingBreak)
    ensures GetReleases(preamble + HeadingBreak + unreleased) == Success("")
  {
    ReleasesRoundTrip(preamble, unreleased, []);
    assert Join(HeadingBreak, [preamble, unreleased]) == preamble + HeadingBreak + unreleased;
  }
}
