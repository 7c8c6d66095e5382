# zendriver_flare_bypasser: DOM search, input devices and release tooling

This project models in Dafny the logic at the core of zendriver_flare_bypasser, a
browser-automation library that drives Chrome over the DevTools protocol, and of
the scripts that release it and build its documentation. The modelled parts are:

- **DOM tree helpers** (`zendriver_flare_bypasser/core/util.py`), in module `DomTree`:
  - the pre-order searches `filter_recurse_all` and `filter_recurse` over a node's
    children and their first shadow root;
  - the in-place pruning `remove_from_tree`, including how it skips the sibling after
    a removed child.
- **Small helpers** from the same file, in module `UtilHelpers`:
  - `compare_target_info`, the field-by-field diff of two target records;
  - `merge_dict`, the merge of two optional dictionaries.
- **The key table** (`key_definitions`), in module `KeyDefinitions`.
- **The input devices** (`zendriver_flare_bypasser/core/inputs.py`), in module `Inputs`:
  - a `Keyboard` class that holds the modifier mask and the set of pressed keys;
  - a `Mouse` class that holds the pointer position and button;
  - a `Touchscreen` class.

  Each one sends protocol events to a `Tab`, which records them in a log.
- **Release tooling** (`scripts/release.py`), in module `Release`:
  - the version bump;
  - the assembly of the changelog section;
  - the flag prechecks.
- **Release notes** (`scripts/mkdocs_generate_release_notes.py`), in module
  `ReleaseNotes`: the changelog is cut at its `## ` headings into the release-notes page.
- **The reference navigation builder** (`scripts/mkdocs_generate_reference.py`), in
  module `ReferenceNav`:
  - the choice of documented modules, in sorted order;
  - the mapping from a module path to its page and name;
  - the rebuilding of the "Reference" part of the site navigation.

Python's `str` methods (`strip`, `split`, `join`, `startswith`, `removesuffix`) are
defined in module `Strings`. `Option` and `Result` are in module `Wrappers`.

Two kinds of operation are modelled differently:

- Operations that update objects in place are methods on classes, such as
  `Keyboard.Down`, `Keyboard.Type`, `Mouse.Move`, `RemoveFromTree` and `AddNavItems`.
  Operations that only run a loop over a list are methods with that loop, such as
  `FilterRecurseAll`, which builds its local result list, and `GetNavItemByTitle`,
  which scans the nav list. Each of these methods is proved against a specification
  function.
- Pure code becomes functions and lemmas.

An exception in the source becomes a `Failure` of a `Result`, with the error named
after the exception's cause.

## Model

| member | source | states |
|---|---|---|
| DomTree.FilterRecurseAll | zendriver_flare_bypasser/core/util.py:140-163 | the method's result is the pre-order search `SearchAll`: it fails when a visited node has an empty shadow-root list, and otherwise gives the matches |
| DomTree.SearchIsFilteredVisit | zendriver_flare_bypasser/core/util.py:155-161 | the search equals the pre-order visit filtered by the predicate, in visiting order: each child, then its first shadow root, then its own descendants |
| DomTree.FilterRecurseAllSound | zendriver_flare_bypasser/core/util.py:151-161 | every returned node satisfies the predicate and is not `doc` itself, and every visited descendant that satisfies it is returned |
| DomTree.OnlyFirstShadowRootVisited | zendriver_flare_bypasser/core/util.py:159-160 | dropping every shadow root after the first does not change the visit: only `shadow_roots[0]` is ever searched |
| DomTree.FilterRecurse | zendriver_flare_bypasser/core/util.py:166-188 | the method's result is the first match of the same pre-order walk, where an empty shadow-root list is skipped rather than raising |
| DomTree.FirstMatchIsHeadOfSearch | zendriver_flare_bypasser/core/util.py:177-188 | when the full search succeeds, `filter_recurse` returns nothing exactly when it is empty, and otherwise returns its first element |
| DomTree.RemoveFromTree | zendriver_flare_bypasser/core/util.py:231-240 | the loop that removes while iterating computes `Prune`, and its invariant tracks the skipped sibling |
| DomTree.PruneRemovesOnlyTarget | zendriver_flare_bypasser/core/util.py:235-240 | only children with the target backend id are removed, and the survivors keep their relative order |
| DomTree.ChildAfterRemovedIsUntouched | zendriver_flare_bypasser/core/util.py:236-239 | the child right after a removed one is neither tested nor descended into |
| DomTree.AdjacentMatchesKeepSecond | zendriver_flare_bypasser/core/util.py:236-239 | of two adjacent children with the target id, the second survives |
| DomTree.PruneWithoutTargetIsIdentity | zendriver_flare_bypasser/core/util.py:231-240 | a tree without the target id comes back unchanged |
| DomTree.UniqueTargetIsRemoved | zendriver_flare_bypasser/core/util.py:235-240 | a target id that occurs at most once among the children is gone afterwards |
| UtilHelpers.CompareTargetInfo | zendriver_flare_bypasser/core/util.py:259-277 | raises exactly when a field of `info1` is missing from `info2`; otherwise it gives at most one change per field |
| UtilHelpers.ChangesComeFromFields | zendriver_flare_bypasser/core/util.py:275-277 | every reported `(key, old, new)` names a field of `info1` whose old value is `info1`'s, whose new value is `info2`'s, and where the two differ |
| UtilHelpers.DifferingFieldsAppear | zendriver_flare_bypasser/core/util.py:275-277 | every field whose values differ is reported, with its old and new values |
| UtilHelpers.ChangesInFieldOrder | zendriver_flare_bypasser/core/util.py:275-277 | the reported keys are a subsequence of `info1`'s field order |
| UtilHelpers.CompareIdenticalIsEmpty | zendriver_flare_bypasser/core/util.py:259-277 | a record compared with itself gives `[]` |
| UtilHelpers.MergeDict | zendriver_flare_bypasser/core/util.py:575-582 | the keys are the union of both inputs, a `None` input counts as empty, and on a conflict `dict2` wins |
| KeyDefinitions.CharDefinitionsHaveNoShiftVariant | zendriver_flare_bypasser/core/util.py:323-572 | every single-character key of the table has a key and a code, and no shift key, shift key code or shift text |
| KeyDefinitions.ShiftKeysAreNotModifiers | zendriver_flare_bypasser/core/util.py:323-572 | no Shift variant in the table is Alt, Control, Meta or Shift |
| KeyDefinitions.CharDefinitionsAreNotModifiers | zendriver_flare_bypasser/core/util.py:323-572 | no single-character key of the table is Alt, Control, Meta or Shift |
| KeyDefinitions.KeyDefinition | zendriver_flare_bypasser/core/util.py:323-572 | the lookup `key_definitions.get(key)`: no entry it returns sets `shiftText`, so the Shift-text branch of the key description never applies to a table key |
| Inputs.ModifierBit | zendriver_flare_bypasser/core/inputs.py:60-69 | Alt gets 1, Control 2, Meta 4 and Shift 8, each value for that key only, and every other key gets 0 |
| Inputs.ModifierBitsDistinct | zendriver_flare_bypasser/core/inputs.py:60-69 | two different modifier keys own disjoint bits, so releasing one leaves the other held |
| Inputs.ModifiersStayInRange | zendriver_flare_bypasser/core/inputs.py:41 | setting or clearing a modifier bit keeps the mask within 0..15 |
| Inputs.ModifierBitUpdates | zendriver_flare_bypasser/core/inputs.py:41 | OR sets exactly that bit and AND-NOT clears exactly that bit; other modifiers leave Shift as it was |
| Inputs.KeyDescriptionForString | zendriver_flare_bypasser/core/inputs.py:71-112 | raises "Unknown key" exactly for a key missing from the table or defined empty |
| Inputs.KeyDescriptionFacts | zendriver_flare_bypasser/core/inputs.py:85-112 | for every modifier mask: the code and location come from the table; under Shift a non-empty shift key and a non-zero shift key code replace the key and key code, otherwise the table's are used; Alt, Control or Meta held forces the text to empty; otherwise a non-empty shift text wins under Shift, then the table's text, then the key itself when it is one character, else empty |
| Inputs.CodeIgnoresModifiers | zendriver_flare_bypasser/core/inputs.py:71-112 | a key's code and its acceptance do not depend on the modifiers |
| Inputs.ShiftSelectsShiftVariant | zendriver_flare_bypasser/core/inputs.py:85-110 | with Shift held and no other modifier, the key reported is the shift variant, and a single-character shift key becomes the text |
| Inputs.KeyADescriptions | zendriver_flare_bypasser/core/inputs.py:71-112 | "KeyA" gives "A" with Shift held, "a" with nothing held, and empty text with Control held |
| Inputs.UnknownKeyRaises | zendriver_flare_bypasser/core/inputs.py:34-58 | an unknown key raises in `down`, `up` and `press`, whatever the state |
| Inputs.DownStepEffect | zendriver_flare_bypasser/core/inputs.py:34-58 | `down` adds the code, ORs in the modifier bit, sends keyDown with text and rawKeyDown without, and auto-repeats exactly when the code was already pressed |
| Inputs.UpStepEffect | zendriver_flare_bypasser/core/inputs.py:114-128 | `up` clears the modifier bit, removes the code (no error if absent) and sends exactly one keyUp |
| Inputs.SecondDownRepeats | zendriver_flare_bypasser/core/inputs.py:39-55 | a second `down` of a held key is an auto-repeat |
| Inputs.DownThenUpSucceeds | zendriver_flare_bypasser/core/inputs.py:146-153 | a key that `down` accepts, `up` and `press` accept as well |
| Inputs.PressRestoresModifiers | zendriver_flare_bypasser/core/inputs.py:146-153 | pressing any key whose table key is not a modifier, letters and digits with Shift variants included, leaves the modifiers as they were, releases the code and sends two events |
| Inputs.CharStepSucceeds | zendriver_flare_bypasser/core/inputs.py:138-144 | one character of `type` never raises |
| Inputs.TypingNeverRaises | zendriver_flare_bypasser/core/inputs.py:134-144 | `type` never raises, whatever the text |
| Inputs.TypeOneMore | zendriver_flare_bypasser/core/inputs.py:138-144 | typing one more character continues from the state and events of the shorter text |
| Inputs.TypingEvents | zendriver_flare_bypasser/core/inputs.py:134-144 | `type` sends two events per character that is in the key table and one insertText per other character, and it leaves the modifiers unchanged |
| Inputs.Keyboard.constructor | zendriver_flare_bypasser/core/inputs.py:23-26 | a new keyboard holds no modifiers and no pressed keys |
| Inputs.Keyboard.Down | zendriver_flare_bypasser/core/inputs.py:34-58 | on an unknown key, nothing changes and nothing is sent; otherwise the new state and the one event sent are those of `DownStep` |
| Inputs.Keyboard.Up | zendriver_flare_bypasser/core/inputs.py:114-128 | the same for `up`, against `UpStep` |
| Inputs.Keyboard.Press | zendriver_flare_bypasser/core/inputs.py:146-153 | `down` then `up`, against `PressStep`; an unknown key sends nothing |
| Inputs.Keyboard.SendCharacter | zendriver_flare_bypasser/core/inputs.py:130-132 | appends exactly one insertText event and changes no keyboard state |
| Inputs.Keyboard.Type | zendriver_flare_bypasser/core/inputs.py:134-144 | the loop over the characters reaches the state of `TypeSteps` and appends its events in order |
| Inputs.Round | zendriver_flare_bypasser/core/inputs.py:188-189 | Python's `round`: within one half of its argument, and exact on integers |
| Inputs.MoveEvents | zendriver_flare_bypasser/core/inputs.py:186-196 | exactly `steps` mouseMoved events (none when `steps` ≤ 0), all with the current modifiers and button |
| Inputs.MoveEndsAtTarget | zendriver_flare_bypasser/core/inputs.py:187-189 | the last intermediate position is the rounded target |
| Inputs.ClickCount | zendriver_flare_bypasser/core/inputs.py:236 | the click count is never 0: an absent or 0 count becomes 1, and any other count is kept |
| Inputs.Mouse.constructor | zendriver_flare_bypasser/core/inputs.py:162-166 | a new mouse is at (0, 0) with no button pressed |
| Inputs.Mouse.Move | zendriver_flare_bypasser/core/inputs.py:174-196 | the target is stored even when `steps` ≤ 0, the button is kept, and the log grows by `MoveEvents` with the default of one step |
| Inputs.Mouse.Down | zendriver_flare_bypasser/core/inputs.py:219-237 | the button becomes the option's value or left, and one mousePressed event is sent at the current position |
| Inputs.Mouse.Up | zendriver_flare_bypasser/core/inputs.py:239-257 | the button is reset to none, and one mouseReleased event is sent for the option's button or left |
| Inputs.Mouse.Click | zendriver_flare_bypasser/core/inputs.py:198-217 | a one-step move, then mousePressed, then mouseReleased, ending at the target with no button held |
| Inputs.Touchscreen.constructor | zendriver_flare_bypasser/core/inputs.py:262-264 | a new touchscreen sends to its tab, and the keyboard whose modifiers its events carry is the given one, as `tab.keyboard` is |
| Inputs.Touchscreen.Tap | zendriver_flare_bypasser/core/inputs.py:272-287 | a touchStart at the rounded point, then a touchEnd with no touch points, both with the keyboard's modifiers |
| Release.ParseIntToString | scripts/release.py:104-110 | Python's `int()` reads back every integer `str()` writes |
| Release.VersionRoundTrip | scripts/release.py:104-110 | formatting a version as `M.m.p` and parsing it with `split(".")` and `int` gives it back |
| Release.GetNewVersion | scripts/release.py:103-111 | a version that does not parse raises first; otherwise there is no bump exactly when no flag is set |
| Release.BumpParsesBack | scripts/release.py:105-110 | the new version parses back to the bump: major resets minor and patch, minor keeps major and resets patch, patch changes only patch; the first set flag among major, minor and patch wins |
| Release.PatternParses | scripts/release.py:42 | a version of the `\d+.\d+.\d+` shape always parses |
| Release.BumpKeepsPattern | scripts/release.py:42 | bumping a version of the pyproject shape with any flag succeeds and gives that shape again |
| Release.BumpExamples | scripts/release.py:103-111 | "1.2.3" bumps to "2.0.0", "1.3.0" and "1.2.4", and with no flag it raises |
| Release.RenderNonEmpty | scripts/release.py:151-155 | the rendered list is empty exactly when every section's content is empty |
| Release.ReleaseBody | scripts/release.py:144-155 | fails with "No changes found" exactly when all four sections are whitespace only |
| Release.AllSectionsInOrder | scripts/release.py:151-155 | with all four sections present: `### Fixed`, `### Added`, `### Changed`, `### Removed`, each followed by a blank line and its stripped content, joined by blank lines |
| Release.BlankSectionsLeftOut | scripts/release.py:151-155 | for every combination of blank sections, the body joins with blank lines exactly the renderings of the sections with content, in the order Fixed, Added, Changed, Removed |
| Release.FixedAndRemovedOnly | scripts/release.py:151-155 | with only Fixed and Removed filled in, the body is those two separated by a blank line |
| Release.Precheck | scripts/release.py:247-252 | no flag defaults to patch, more than one flag is an error, and a single flag is kept |
| Release.PrecheckedBumpSucceeds | scripts/release.py:247-252 | after the prechecks, bumping a version of the pyproject shape always succeeds |
| ReleaseNotes.GetReleases | scripts/mkdocs_generate_release_notes.py:13-23 | fails exactly when there is no `\n## ` heading (the `pop` from an empty list) or when the first section does not start with `[Unreleased]` |
| ReleaseNotes.NoHeadingFails | scripts/mkdocs_generate_release_notes.py:17-18 | text without `\n## ` fails on the `pop` |
| ReleaseNotes.WrongFirstSectionFails | scripts/mkdocs_generate_release_notes.py:18-21 | a first section that is not Unreleased is refused, whatever follows |
| ReleaseNotes.ReleasesRoundTrip | scripts/mkdocs_generate_release_notes.py:17-23 | the preamble and the Unreleased section are dropped, and the releases come out in order, each stripped, re-headed with `## ` and joined by blank lines |
| ReleaseNotes.OnlyUnreleasedIsEmpty | scripts/mkdocs_generate_release_notes.py:18-23 | a changelog whose only section is Unreleased gives "" |
| ReleaseNotes.ReleaseNotesPage | scripts/mkdocs_generate_release_notes.py:26-29 | the page is `# Release Notes`, a blank line, the releases and a final newline; it fails exactly when `get_releases` does |
| ReferenceNav.FirstTitled | scripts/mkdocs_generate_reference.py:50-52 | the index of the first item that has the title; no earlier item has it |
| ReferenceNav.GetNavItemByTitle | scripts/mkdocs_generate_reference.py:49-54 | the loop returns the value of the first titled item and raises when there is none |
| ReferenceNav.FoundEntryIsFirst | scripts/mkdocs_generate_reference.py:49-54 | a successful lookup is the first item with that title |
| ReferenceNav.MissingTitleRaises | scripts/mkdocs_generate_reference.py:54 | with no titled item, the lookup raises "not found" |
| ReferenceNav.InsertPath | scripts/mkdocs_generate_reference.py:73-89 | the inner loop: a one-part path appends the page leaf, named without `.md`, at the end; a longer path reuses the first section with its first part as title and leaves every other item unchanged, or appends a new section holding only the chain of sections down to the page; the result extends the list: every item keeps its place, a reused section keeps its items and grows the same way, and at most one item is appended |
| ReferenceNav.InsertedPageIsFound | scripts/mkdocs_generate_reference.py:73-89 | after the insertion, following the directory parts from the top reaches a section whose last item is the new page |
| ReferenceNav.InsertAddsOnePage | scripts/mkdocs_generate_reference.py:83-89 | each doc path adds exactly one page leaf |
| ReferenceNav.OnePagePerDocument | scripts/mkdocs_generate_reference.py:70-89 | a rebuilt Reference section holds exactly one page per document |
| ReferenceNav.AddNavItems | scripts/mkdocs_generate_reference.py:64-91 | a missing Reference raises; the old Reference entries are discarded; the Reference becomes the fold over the documents; no other nav entry changes |
| ReferenceNav.HiddenByFileName | scripts/mkdocs_generate_reference.py:33 | the stem starts with `_` exactly when the file name does |
| ReferenceNav.PageTitleIsStem | scripts/mkdocs_generate_reference.py:85-100 | the page's leaf title after `removesuffix(".md")` is the module file's stem |
| ReferenceNav.Sort | scripts/mkdocs_generate_reference.py:32 | `sorted`: an ordered permutation of the paths |
| ReferenceNav.DocumentedModules | scripts/mkdocs_generate_reference.py:29-34 | every module it returns is documented: a non-empty path whose file stem does not start with `_` |
| ReferenceNav.DocumentedModulesSortedAndComplete | scripts/mkdocs_generate_reference.py:29-34 | the documented modules are sorted, and each path appears exactly as often as in the input when its stem does not start with `_`, and otherwise not at all |
| ReferenceNav.ModulePages | scripts/mkdocs_generate_reference.py:97-104 | for each module in order: its doc path is the same path with `.md`, and its name is the parts without the suffix |
| ReferenceNav.GenerateReference | scripts/mkdocs_generate_reference.py:94-106 | for each documented module in order, its page is the path with `.md` and its name is the dotted parts without the suffix; succeeds exactly when the Reference lookup and the nav fold do; the Reference section then holds exactly one page per document, and every other nav entry is unchanged |
| Strings.StripEmpty | scripts/release.py:144-147 | `strip()` gives the empty string exactly for all-whitespace text |
| Strings.StripEnds | scripts/mkdocs_generate_release_notes.py:23 | the result of `strip()` neither starts nor ends with whitespace |
| Strings.SplitJoin | scripts/mkdocs_generate_release_notes.py:17 | `split(sep)` undoes `sep.join` for pieces that do not run into the separator |
| Strings.RemoveSuffix | scripts/mkdocs_generate_reference.py:85 | `removesuffix` drops the suffix exactly when the text ends with it |

## Left out

- I/O and timing: the `asyncio.sleep` delays and the `async` scheduling are left out; every `await` runs in sequence.
- Sending over the connection: `tab.send` is the `Tab` class appending to an event log, with no connection, reply or session behind it.
- Protocol commands: each command is reduced to an `Event` holding the parameters the devices set; the protocol module that builds the JSON is not part of this model.
- Mouse coordinates are `real` numbers and Python's `round` is `Round`. Float rounding error in the `i / steps` interpolation is not modelled.
- Inputs: the source reaches the keyboard as `self.tab.keyboard`; the model's `Tab` holds only the event log, so `Mouse` and `Touchscreen` are given that keyboard when constructed.
- Inputs.MoveEvents: the intermediate positions before the last are stated only through their count, modifiers and button, not their values.
- Button names: a string that `MouseButton` would reject cannot occur, because buttons are an enumeration.
- The other helpers of `util.py` need a live browser, sockets, an event loop, module reflection or floating-point trigonometry: `start`, `create_from_undetected_chromedriver`, `get_registered_instances`, `free_port`, `circle`, `html_from_tree`, `loop`, `cdp_get_module`.
- DomTree.RemoveFromTree: `list.remove(child)` removes the first equal child, and the model removes the child at the current position. The two agree because real DOM nodes carry unique node ids, which the model's `Node` leaves out.
- DomTree: nodes are values, so the in-place mutation of the shared tree is modelled as returning the new tree. Aliasing between references to the same node is not captured.
- UtilHelpers.MergeDict: a map has no order, so the insertion order of the merged dict is not captured. The fact that the inputs are not modified is a consequence of working on values.
- KeyDefinitions: only the entries of the table are modelled, as data.
- Release.ParseInt: Python's `int()` also accepts non-ASCII Unicode digits; `ParseInt` accepts ASCII digits only, with single `_` between digits, an optional sign and surrounding whitespace, as `int()` does.
- Release.MatchesVersionPattern: it uses ASCII digits, while the regex's `\d` also matches other Unicode digits.
- Release prose: `section.title()` is applied only to the four fixed section names, so it is written out as "Fixed", "Added", "Changed" and "Removed".
- Release: the regex extraction of the Unreleased sections is not modelled; the four section strings are inputs.
- Release: the regex substitution that writes the new changelog is not modelled, and neither is the release date from `datetime.date.today()`.
- Release: git and GitHub are not modelled (the `git` subprocess calls, the GitHub HTTP request, the token, the prompt) and neither is `os.chdir`. The pyproject and version-file writes are not modelled either.
- Reference navigation: the YAML file is a sequence of `NavItem` values, and each nav dict has exactly one key. Bare string items are kept, and `title in item` on them is a substring test. Anchors and multi-key dicts are not modelled.
- ReferenceNav.AddNavItems: the source descends by aliasing into the nested lists and appends in place. The model rebuilds the nested sequence along the path (`InsertPath`), so the sharing between `current_section` and the tree is not captured.
- Reference files: `rglob` is replaced by the input list of module paths. File writes, `mkdir`, `rmtree`, `unlink` and the `clean_reference_docs_dir` helper are not modelled.
- Other files of the repository: `debugger.py`, the package `__init__.py`, `scripts/mkdocs_generate_index.py` and `example/browserscan.py` are not part of this model. They are thin wrappers, re-exports, a file copy and a live-browser script.
