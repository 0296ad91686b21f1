# gimbo: a verified model of the emoji snippet munger

`gimbo.py` takes the upstream emoji collections for Alfred (`*.alfredsnippets` zip files) and merges them into one big collection. Along the way it:

- strips the `:` delimiters baked into every keyword;
- removes or renames a hand-picked list of snippets;
- rewrites the name of every kept snippet to `Emoji | <collection label> | <name> | <keyword>`;
- indexes the snippets by keyword and by name, and reports the clashes.

This project models the logic of that script in Dafny and proves what it does:

- **`Snippets`**: the `Snippet` dataclass as a mutable class, and its JSON mapping as a function to and from a JSON value, with the round trip.
- **`Text`**: `str.split(':')` and `str.replace`, as the script uses them.
- **`Naming`**:
  - the keyword strip `re.sub(r'^:(.+):$', r'\1', keyword)`, with Python's exact `$` and `.` semantics;
  - the collection label;
  - the display name.
- **`Rules`**: the `SNIPPET_ACTIONS` table and how an action string is interpreted.
- **`Multimap`**: the two `defaultdict(list)` indexes and the clash filters of the two reports.
- **`Tweak`**:
  - `tweak_snippet` on values (`TweakRecord`) and in place (`SnippetIndex.TweakSnippet`). The index lists hold the very `Snippet` objects that are renamed afterwards.
  - `process_snippet` and the per-collection loop of `extract_and_process_snippets`, over a directory modelled as a map from file name to JSON value.
- **`Merge`**: the collision-checked move of every collection's JSON files into the final directory.
- **`Ignore`**: `should_be_ignored` and its two anchored patterns.

Four things one might expect of the script do not hold of its code, and the model follows the code:

- Deriving the collection label is not idempotent. `Naming.LabelNotIdempotent` exhibits `[Emo[Emoji] ji] `.
- The merge detects collisions on JSON file names, not on display names.
- Equal display names mean equal labels, indexed names and keywords when neither the label nor the indexed name contains a `|` (`Naming.DisplayNameInjective`). Two snippets that agree on all three, such as duplicates within one collection, still share one display name. A `|` can make two different triples collide, and so can two collections with the same label (`Naming.DisplayNameCollisions`).
- A rewritten snippet file holds only the four fields `snippet`, `uid`, `name` and `keyword` (gimbo.py:46-58). Any other member of its `alfredsnippet` object is lost. `Snippets.ToJson` writes the same four fields, and `Snippets.RewriteKeepsFields` speaks only of them.

## Model

| member | source | states |
|---|---|---|
| Snippets.Lookup | gimbo.py:37 | a key is absent exactly when no member has it; otherwise the value is that of its last occurrence (the dict `json.loads` builds) |
| Snippets.FromJsonFirstError | gimbo.py:37-43 | the fields are read in the order `snippet`, `uid`, `name`, `keyword`, and the error reported is that of the first one missing or not a string, whatever the later ones hold |
| Snippets.FromJsonNoDocument | gimbo.py:37 | a document that is not an object raises for that, and one without the `alfredsnippet` key raises the missing key |
| Snippets.RoundTrip | gimbo.py:36-58 | reading back what `to_json` wrote, with the snippet's collection, gives the same snippet |
| Snippets.RewriteKeepsFields | gimbo.py:36-58 | writing a parsed snippet back out keeps each of its four stored fields |
| Snippets.ToJsonInjective | gimbo.py:46-58 | two different snippets of one collection never serialize to the same structure |
| Snippets.Snippet.constructor | gimbo.py:27-33 | a new snippet holds exactly the given field values |
| Text.SplitPieces | gimbo.py:187 | `split(sep)` yields one more piece than there are separators; no piece holds the separator, and joining the pieces with it restores the string |
| Text.SplitJoin | gimbo.py:187 | splitting the join of separator-free pieces gives the pieces back |
| Text.SplitTwo | gimbo.py:187 | `a + sep + b` with separator-free `a` and `b` splits into exactly `[a, b]` |
| Text.SplitWithoutSeparator | gimbo.py:187 | a string without the separator splits into itself alone |
| Text.SplitAfterPiece | gimbo.py:187 | a separator-free first piece is split off unchanged |
| Text.ReplaceAll | gimbo.py:190 | a string that lacks the pattern's first character is unchanged, and a replacement no longer than the pattern never lengthens the string |
| Text.ReplaceAllAtFront | gimbo.py:190 | an occurrence at the front is replaced and the scan resumes after it |
| Text.ReplaceAllSkips | gimbo.py:190 | a prefix without the pattern's first character is copied unchanged |
| Text.ReplaceAllCopies | gimbo.py:190 | a character that does not start an occurrence is copied unchanged |
| Naming.StripAffixMatch | gimbo.py:181 | when `^:(.+):$` matches, the delimiters are dropped and a final newline after `$` is kept; when it does not match, the keyword is unchanged |
| Naming.StripAffixPlain | gimbo.py:181 | for a newline-free keyword: length at least 3 with `:` at both ends loses its first and last characters, anything else is unchanged |
| Naming.StripThenRewrap | gimbo.py:181 | re-adding the common prefix and suffix to a changed keyword without a newline restores it |
| Naming.StripAffixExamples | gimbo.py:181 | `:coffee:` becomes `coffee`, `:a:b:` becomes `a:b` (greedy), and `::`, `:a` and `coffee` are unchanged |
| Naming.Label | gimbo.py:190 | the label is never longer than the collection name |
| Naming.LabelOfUpstreamCollection | gimbo.py:190 | `[Emoji] X.alfredsnippets` is labelled `X` when `X` holds no `[` and no `.` |
| Naming.LabelExamples | gimbo.py:190 | the Weather and Food and Drink collections get the labels `Weather` and `Food and Drink` |
| Naming.LabelNotIdempotent | gimbo.py:190 | labelling `[Emo[Emoji] ji] ` gives `[Emoji] `, and labelling that again gives the empty string |
| Naming.MarkerRemovalJoinsMarker | gimbo.py:190 | removing the marker from `[Emo[Emoji] ji] ` joins the surrounding characters into a new marker |
| Naming.RemovalJoins | gimbo.py:190 | removing the one occurrence of a pattern that sits after a first character and a stretch without the pattern's first character, and before such a stretch, joins the text on both sides |
| Naming.DisplayNameInjective | gimbo.py:191 | equal display names come from equal labels, names and keywords when labels and names contain no bar character |
| Naming.SeparatedPrefix | gimbo.py:191 | two bar-free prefixes, each followed by a space, a bar and a space, are told apart |
| Naming.BarAfter | gimbo.py:191 | a bar-free prefix cannot extend past the bar that follows the other prefix |
| Naming.DisplayNameCollisions | gimbo.py:190-191 | a bar character inside a name, or two collections with one label, give equal display names for different parts |
| Rules.RulesOnlyForListedCollections | gimbo.py:74-117 | a snippet outside the seven listed upstream collections has no rule, whatever its uid |
| Rules.InterpretCases | gimbo.py:182-187 | the branches of `tweak_snippet`: `remove` drops; no rule or an unrecognised action keeps; a `rename:` action raises exactly when the text after the tag does not hold exactly one `:`; otherwise it is `rename:K:N` with colon-free K and N |
| Rules.RenameParses | gimbo.py:186-187 | `rename:K:N` with colon-free K and N renames to K and N |
| Rules.RenameShape | gimbo.py:186-187 | a `rename:` action whose tail splits into exactly two pieces is the tag, the two colon-free pieces and the `:` between them |
| Rules.TableValues | gimbo.py:74-117 | the table holds only `remove` and the three rename actions |
| Rules.RenameSpaceInvader | gimbo.py:111 | that action renames to `space-invader` / `Space Invader` |
| Rules.RenameNoGood | gimbo.py:113 | that action renames to `ng` / `No Good (block)` |
| Rules.RenameShootingStar | gimbo.py:115 | that action renames to `shoting-star-block` / `Shooting Star (block)` |
| Rules.TableWellFormed | gimbo.py:74-117 | no lookup in the table makes `tweak_snippet` raise, and every listed snippet is dropped or renamed |
| Multimap.Append | gimbo.py:188-189 | appending adds the value at the end of its key's list, creating the key when needed, and leaves every other key's list unchanged |
| Multimap.Keys | gimbo.py:188-189 | the keys of the appends, in order |
| Multimap.KeysAppend | gimbo.py:188-189 | one more append adds its key at the end |
| Multimap.ValuesFor | gimbo.py:188-189 | there are as many values for a key as appends under it |
| Multimap.BuildLists | gimbo.py:188-189 | a key is present exactly when it was appended to, and its list is the values appended under it, in order |
| Multimap.NoClashes | gimbo.py:249-250 | "no clashes" is reported exactly when no list holds two entries (likewise lines 265-266 for names) |
| Multimap.ClashesOfBuild | gimbo.py:244-248 | a key is reported exactly when it was appended to more than once, together with every value appended under it |
| Multimap.NoClashesOfBuild | gimbo.py:249-250 | "no clashes" is reported exactly when no key was appended to twice |
| Multimap.BuildListsNonEmpty | gimbo.py:120-121 | every list in an index is non-empty |
| Tweak.TweakRecordCases | gimbo.py:179-192 | `remove` drops the snippet and a bad rename raises, both after the keyword strip; a kept snippet is indexed under the renamed (or stripped) keyword and the renamed (or own) name, and its display name is built from those; the other fields are unchanged |
| Tweak.TweakNeverFails | gimbo.py:182-187 | with the table as written, `tweak_snippet` never raises |
| Tweak.TweakKeepsIdentity | gimbo.py:190-192 | a kept snippet keeps its collection, uid and payload |
| Tweak.KeptNamesSeparate | gimbo.py:190-191 | equal final display names mean equal labels, indexed names and final keywords, when those contain no bar character |
| Tweak.TweakRemoved | gimbo.py:181-185 | any snippet whose rule is `remove` is dropped, once its keyword has been stripped |
| Tweak.ScenarioRemove | gimbo.py:79 | the first Activity removal drops its snippet once its keyword has been stripped |
| Tweak.TweakRenamed | gimbo.py:186-191 | a rename sets the keyword and name it is indexed under, then the display name is built from them |
| Tweak.TweakKept | gimbo.py:181-191 | without a rule, the snippet keeps its stripped keyword and its name before getting its display name |
| Tweak.ScenarioRename | gimbo.py:186-191 | the Weather shooting-star snippet ends up as `shoting-star-block` with the display name built from the label `Weather`, the name `Shooting Star (block)` and that keyword |
| Tweak.WeatherLabel | gimbo.py:190 | the Weather collection is labelled `Weather` |
| Tweak.WeatherRule | gimbo.py:115 | the Weather shooting-star rule renames the snippet |
| Tweak.ScenarioCoffee | gimbo.py:181-191 | `:coffee:` in two collections without rules: both are kept as `coffee` with distinct display names, and `coffee` is reported as a clash listing both |
| Tweak.ProcessFileSucceeds | gimbo.py:164-176 | with the table as written, a file raises exactly when its snippet does not parse, and then with that parse error |
| Tweak.RewrittenFileParses | gimbo.py:164-176 | a rewritten file reads back, in its own collection, as the tweaked snippet |
| Tweak.VisitFrame | gimbo.py:164-176 | the visited file disappears exactly when it is deleted; other files are unchanged, and no file is created |
| Tweak.VisitPending | gimbo.py:160-161 | after a file is visited, every later file of the listing is still in the directory |
| Tweak.VisitCases | gimbo.py:164-176 | one file's effect case by case: a parse error or a bad rule stops the run; a drop deletes the file and indexes nothing; a keep rewrites it and indexes its keyword and name |
| Tweak.VisitFile | gimbo.py:164-176 | after one visit, every other file and its deletion status is unchanged, and the visited file holds what `process_snippet` wrote, unless it was deleted |
| Tweak.ProcessFromUnfold | gimbo.py:160-161 | one turn of the loop: a failing file ends the run with its error, and a processed one moves the run on |
| Tweak.ProcessedFiles | gimbo.py:154-161 | after the loop, a file is gone exactly when it was listed and deleted; unlisted files are untouched, and listed survivors hold what `process_snippet` wrote |
| Tweak.LaterStep | gimbo.py:160 | a file is still to come exactly when it is the current one or comes after it, and not both when files are listed once |
| Tweak.SnippetIndex.constructor | gimbo.py:120-121 | the indexes start empty |
| Tweak.SnippetIndex.TweakSnippet | gimbo.py:179-192 | the snippet object is changed in place to the outcome of `TweakRecord`; on a keep, the same object is appended once to each index, under its keyword and its pre-prefix name; on a drop or an error neither index changes |
| Tweak.SnippetIndex.IndexAndRename | gimbo.py:188-191 | appends the snippet under its current keyword and name, then rewrites its name for display |
| Tweak.SnippetIndex.ProcessRecord | gimbo.py:165-170 | a new object is made for the parsed record and tweaked; on a keep the result is the tweaked record and that one object, which holds it, is appended to both indexes under the keyword and name `TweakRecord` gives; on a drop or an error neither index changes |
| Tweak.SnippetIndex.ProcessSnippet | gimbo.py:164-176 | the result and the directory are those of `Visit`, a raise included; a kept snippet is one new object holding its tweaked values, appended at the end of both indexes after the earlier entries; a file that raises or is dropped leaves the indexes as they were |
| Tweak.SnippetIndex.ProcessNext | gimbo.py:160-161 | one turn of the loop: `ProcessSnippet`, after which the objects indexed earlier still hold the values they held |
| Tweak.SnippetIndex.ProcessCollection | gimbo.py:154-161 | the loop leaves the directory as the fold of `Visit` over the files and stops with the first error; the indexes are the earlier entries followed by one entry per kept snippet in file order, each the object that, at the end, holds that snippet's tweaked values |
| Merge.StepNeverOverwrites | gimbo.py:205-208 | a move never overwrites or removes a file already in the final directory, adds no name but its own, and, unless an error was raised before, leaves its name in place, taken from its own directory when the name was new |
| Merge.RepeatsAtEnd | gimbo.py:206-207 | the moves repeat no name exactly when the earlier ones do not and the last name is new |
| Merge.MergedFiles | gimbo.py:201-208 | a merge that does not raise repeats no name, and leaves every file, and nothing else, in the final directory, each from the collection that had it, as many files as were moved |
| Merge.MergeSucceeds | gimbo.py:201-208 | the merge succeeds exactly when no file name repeats |
| Merge.FilesOfAllMoves | gimbo.py:201-205 | a file name is moved exactly when some collection lists it |
| Merge.MergeUnion | gimbo.py:201-208 | the merge succeeds exactly when no file name repeats, and the final directory is then exactly the union of the collections' JSON files |
| Merge.MergeStopsAtFirstClash | gimbo.py:205-208 | the error is raised on the first move whose name is taken; everything before it is in place with distinct names, including the clashing name, and nothing was overwritten |
| Merge.MoveAllStops | gimbo.py:207 | once a move has raised, later moves change nothing |
| Merge.MovesSoFar | gimbo.py:203-205 | the inner loop's progress, one file at a time |
| Merge.CollectionDone | gimbo.py:203-204 | a finished collection completes a turn of the outer loop |
| Merge.MoveAllSnoc | gimbo.py:205-208 | the moves are made one after another |
| Merge.ClashIsFinal | gimbo.py:206-207 | a clash decides the outcome of the whole merge |
| Merge.AllMovesSplit | gimbo.py:203-205 | all moves split inside a collection |
| Merge.MovesOfSplit | gimbo.py:204-205 | a collection's moves split after its first files |
| Merge.AllMovesConcat | gimbo.py:203-205 | all moves are those before a collection followed by those from it on |
| Merge.MergeCollections | gimbo.py:201-208 | the nested loop, moving each file or stopping at the first clash, ends in exactly the state of the reference fold `MoveAll` |
| Ignore.ShouldBeIgnored | gimbo.py:139-143 | returns true exactly when one of the two anchored patterns matches the name |
| Ignore.IgnoresListed | gimbo.py:64-69 | `Arrows.alfredsnippets` and the final collection's own name are skipped |
| Ignore.DotIsWildcard | gimbo.py:66 | the unescaped `.` lets any non-newline character stand before `alfredsnippets` |
| Ignore.UpstreamNotIgnored | gimbo.py:64-69 | no upstream collection `[Emoji] X.alfredsnippets` is skipped |

## Left out

- Zip extraction and writing, `shutil`, `Path.glob`, `iterdir`, `mkdir`, `rename` and `unlink`: file system I/O. A directory is modelled as a map from file name to JSON value, or as the set of names moved in. The order of the listing is taken as given.
- JSON text encoding (`json.loads`, `json.dumps`, `indent`, `ensure_ascii`): library calls. A JSON value is a datatype.
- Snippets.FromJson: Python stores whatever value a field holds, and the model requires each of the four fields to be a JSON string (anything else is the error `NotAString`).
- `tweak_info_plist` (gimbo.py:221-235): a multi-line regular-expression rewrite of XML text, outside the snippet logic.
- `main` (gimbo.py:124-135) and `tweak_snippetfile` (gimbo.py:146-151): the driver order, and the skipped workspace wipe and directory creation.
- The report printing (gimbo.py:238-272): only the clash maps and the "no clashes" test are modelled, not the output text or its order.
- The progress messages (gimbo.py:147, 148, 151, 159, 197 and 202): output only.
- The icon copy and the `info.plist` move in the merge step (gimbo.py:209-210): file I/O.
- The `IndexError` of `collections[0]` (gimbo.py:210) when the workspace holds no collection: the script raises there, while `Merge.MergeCollections` of no collection ends with an empty final directory and no error, because the step after the moves is not modelled.
- Text.ReplaceAll: requires a non-empty pattern, which is all the script uses. Python's behaviour on an empty pattern is not modelled.
- Ignore.Matches: a pattern body is read as literal text with `.` as a wildcard. That is all the two patterns use, and it is not a general regular-expression engine.
- Merge.MergeCollections: file names are compared as exact strings. `destination.exists()` (gimbo.py:206) asks the file system, and on a case-insensitive volume it also finds a name that differs only in case, so the script can raise `ValueError` where the model moves the file (and `Merge.MergeSucceeds` calls the merge a success).
- Tweak.SnippetIndex.ProcessCollection: the file list must be given without repeats, as a directory listing is.
- Tweak.SnippetIndex.ProcessCollection: does not restate that the indexed objects are new ones; `Tweak.SnippetIndex.ProcessSnippet` states it of each object as it is made.
