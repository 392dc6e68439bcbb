# Project folder templates, modelled in Dafny

This models the core of GreenTech's project-folder creator, a small C# console
tool. It keeps a **template**: an ordered list of root folders, each with a name
and an ordered list of subfolders. The user can do four things with it:
- add a root folder;
- add a subfolder under a root chosen by its 1-based number;
- remove a root by its number;
- print the template, or create the template's folders as directories under a
  new project directory.

The test project repeats the same operations without console output, and its
assertions are stated here as lemmas.

Modules, in dependency order:

- `Text` (`text.dfy`): the pieces of .NET string handling the tool relies on.
  - `string.IsNullOrWhiteSpace` over `Char.IsWhiteSpace`.
  - `string.Equals(…, StringComparison.OrdinalIgnoreCase)`, as an explicit
    character-wise upper-case fold.
  - The decimal text of the ordinals printed before each root.
- `Folders` (`folders.dfy`):
  - The `Folder` tree as a datatype.
  - The sibling-uniqueness invariant (`WellFormed`).
  - The seed template (`DefaultFolders`).
  - The value-level edits: `AddUnique`, `AddChild`, `AddSubfolderAt`, `RemoveAt`.
  - `Outcome`, which says which message an edit reports.
- `Walks` (`walks.dfy`): the two pre-order walks of the tree.
  - `Outline` gives (depth, name) entries, and `Listing` turns them into the
    lines that DisplayTemplate and DisplaySubfolders print.
  - `Paths` gives the directory paths that CreateFolderStructure passes to
    `Directory.CreateDirectory`, each path a list of segments.
  - Lemmas prove that the two walks visit the same folders in the same order,
    and that every directory is created after its parent.
- `Template` (`template.dfy`): class `FolderTemplate`, whose `baseFolders` field
  the edit methods update in place.
  - Each edit is proved equal to the value-level edit of `Folders`, and to keep
    sibling names distinct.
  - `DisplayTemplate` is the index loop of the source, proved to print
    `Listing(baseFolders)`.
- `Materialize` (`materialize.dfy`): class `Disk`, with the set of existing
  directories and the log of `CreateDirectory` calls.
  - The recursive `CreateFolderStructure` and the project-level `CreateProject`
    are proved to issue exactly the calls of `Paths`.
  - Every folder's directory, and the project directory, exists afterwards.
  - Repeating the creation changes nothing.
- `TemplateTests` (`tests.dfy`): the MSTest assertions of
  `BusinessProblemTests.cs` as lemmas over the model.
  - Also the complete listing and the complete list of eleven directories for
    the seed template.

Some representation choices:
- Paths are `seq<string>`, and `Path.Combine(parent, name)` is `parent + [name]`.
- A failed `int.TryParse` takes the same branch as an out-of-range number, so
  the edit methods take an `int` index.
- A `null` string cannot occur. `string.IsNullOrWhiteSpace` on the empty string
  takes the same branch.

Three details of the code that the model keeps:
- **Removal index.** `RemoveFolder` takes the 1-based number the user types.
  `RemoveAt` takes the 0-based position that `List.RemoveAt` receives.
- **Finding a folder by name.** The tests' `Find(f => f.Name == name)` compares
  names exactly, and so does `FindByName`. It returns the first match.
- **Output of the display.** `DisplayTemplate` prints numbered, indented lines;
  that is `Listing`. `Outline` is the (depth, name) view of the same lines.

## Model

| member | source | states |
|---|---|---|
| `Text.IsWhiteSpace` | BusinessProblem/Program.cs:199 | definition: Char.IsWhiteSpace, the code points `string.IsNullOrWhiteSpace` treats as blank |
| `Text.IsNullOrWhiteSpace` | BusinessProblem/Program.cs:199 | definition: a name is blank when every character is white space, the empty name included |
| `Text.UpperInvariant` | BusinessProblem/Program.cs:205 | definition: the per-character upper-case fold behind OrdinalIgnoreCase |
| `Text.EqualsIgnoreCase` | BusinessProblem/Program.cs:205 | definition: same length and equal characters after the upper-case fold |
| `Text.ToUpperInvariant` | BusinessProblem/Program.cs:205 | the upper-cased string has the same length as the name |
| `Folders.Leaf` | BusinessProblem/Program.cs:211 | definition: `new Folder { Name = name }`, a folder with no subfolders |
| `Folders.ContainsName` | BusinessProblem/Program.cs:205 | definition: the `Exists` call, some sibling's name equals the name ignoring case |
| `Folders.AddVerdict` | BusinessProblem/Program.cs:199-209 | definition: the branch order of an add, blank name first, then a duplicate name, otherwise added |
| `Walks.Outline` | BusinessProblem/Program.cs:264-282 | definition: the (depth, name) pre-order walk behind the printed listing |
| `Walks.Paths` | BusinessProblem/Program.cs:148-158 | definition: the paths CreateFolderStructure passes to CreateDirectory, in call order |
| `Walks.Indent` | BusinessProblem/Program.cs:280 | definition: the indentation DisplaySubfolders reaches at a depth, two spaces more per level |
| `Walks.Line` | BusinessProblem/Program.cs:270 | definition: a root's line is its number, a dot and its name; a deeper folder's line is its indentation, the branch glyph and its name (line 279) |
| `Walks.Listing` | BusinessProblem/Program.cs:264-273 | definition: the outline formatted with roots numbered from 1 |
| `Walks.Format` | BusinessProblem/Program.cs:268-271 | one printed line per entry of the outline |
| `Walks.SubfolderLines` | BusinessProblem/Program.cs:275-282 | definition: DisplaySubfolders, each subfolder's line, then its own subfolders two spaces further in, then its later siblings |
| `Materialize.Ancestors` | BusinessProblem/Program.cs:151 | definition: the directories CreateDirectory ensures exist, the path and each of its parents |
| `Text.EqualsIgnoreCaseIffSameUpper` | BusinessProblem/Program.cs:205 | two names clash ignoring case exactly when their upper-cased forms are equal, so the duplicate check is an equivalence |
| `Text.AsciiCaseVariants` | BusinessProblem.Tests/BusinessProblemTests.cs:187 | names that differ only in the case of ASCII letters are equal ignoring case |
| `Text.Decimal` | BusinessProblem/Program.cs:270 | the ordinal printed before a root is a non-empty string of decimal digits with no leading zero |
| `Text.DecimalRoundTrip` | BusinessProblem/Program.cs:220 | the ordinal printed before root i reads back as i, so the number a user types from the listing selects that root |
| `Folders.AddUnique` | BusinessProblem/Program.cs:199-211 | the siblings grow by exactly one when the name is neither blank nor already present ignoring case, and are otherwise unchanged; earlier siblings stay in order and the new one is a leaf with that name at the end |
| `Folders.AddChild` | BusinessProblem.Tests/BusinessProblemTests.cs:195-208 | the parent keeps its name; its subfolders grow by one exactly when the add is accepted, the existing subfolders are kept in order, and the appended one is a leaf with the given name at the end; a blank or duplicate name leaves the parent unchanged |
| `Folders.AddSubfolderAt` | BusinessProblem/Program.cs:220-244 | an index outside 1..Count changes nothing; otherwise only root index-1 changes, and it changes as `AddChild` says |
| `Folders.RemoveAt` | BusinessProblem/Program.cs:259-260 | one folder fewer; the folders before the index are unchanged, those after shift down by one, and the removed folder is exactly the one at the index (multiset) |
| `Folders.FindByName` | BusinessProblem.Tests/BusinessProblemTests.cs:57 | a found folder is in the list and has exactly that name, and no earlier folder has that name (the first match, as `List.Find` returns); nothing is found exactly when no folder has that name |
| `Folders.DefaultFolders` | BusinessProblem/Program.cs:56-94 | the seed has four roots, Dokumentace, Materiály, Komunikace and Fotografie, with 3, 2, 2 and 0 subfolders and no grandchildren |
| `Folders.AddUniqueKeepsDistinct` | BusinessProblem/Program.cs:205-211 | adding a root keeps the root names pairwise distinct ignoring case |
| `Folders.AddUniqueKeepsWellFormed` | BusinessProblem/Program.cs:205-211 | adding a root keeps sibling names distinct at every level |
| `Folders.AddUniqueMakesNamePresent` | BusinessProblem/Program.cs:205-211 | after adding a non-blank name, a folder of that name (ignoring case) is among the siblings |
| `Folders.AddUniqueIdempotent` | BusinessProblem/Program.cs:205-211 | adding the same name twice leaves the same siblings as adding it once |
| `Folders.AddSubfolderAtKeepsWellFormed` | BusinessProblem/Program.cs:238-244 | adding a subfolder keeps sibling names distinct at every level |
| `Folders.RemoveAtKeepsWellFormed` | BusinessProblem/Program.cs:259-260 | removing a root keeps sibling names distinct at every level |
| `Folders.RemoveAtRemovesName` | BusinessProblem/Program.cs:259-260 | with distinct sibling names, the removed folder's name is no longer among the remaining ones |
| `Folders.DefaultIsWellFormed` | BusinessProblem/Program.cs:56-94 | the seed template has distinct sibling names at every level |
| `Walks.OutlineCount` | BusinessProblem/Program.cs:275-282 | the listing walk has one entry per folder of the tree |
| `Walks.PathsCount` | BusinessProblem/Program.cs:148-158 | the materialising walk creates one directory per folder of the tree |
| `Walks.OutlineAppend` | BusinessProblem/Program.cs:277-281 | listing two runs of siblings lists the first run, then the second |
| `Walks.PathsAppend` | BusinessProblem/Program.cs:154-157 | materialising two runs of siblings creates the first run's directories, then the second's |
| `Walks.WalksAgree` | BusinessProblem/Program.cs:148-158 | the k-th listed folder and the k-th created directory are the same folder: the path lies under the parent, ends in that folder's name, and has one segment more per level of depth |
| `Walks.WalkShape` | BusinessProblem/Program.cs:150 | in both walks, the k-th folder's depth is at least the starting depth, and its path is one segment longer per level below the start |
| `Walks.WalkNames` | BusinessProblem/Program.cs:150 | the k-th created path ends in the k-th listed name |
| `Walks.PathsUnder` | BusinessProblem/Program.cs:150 | every created path extends the parent path it started from |
| `Walks.PathsParentsFirst` | BusinessProblem/Program.cs:148-158 | every directory is created after its parent: the parent is the starting path or a path created earlier |
| `Walks.RootsInOutline` | BusinessProblem/Program.cs:268 | the listing walk holds one depth-0 entry per root and none below |
| `Walks.FormatAppend` | BusinessProblem/Program.cs:268-271 | printing two runs of entries prints the first run, then the second with numbering continued after the first run's roots |
| `Walks.SubfolderLinesFormatOutline` | BusinessProblem/Program.cs:275-282 | DisplaySubfolders prints exactly the listing walk's lines for the subfolders at their depth, two spaces of indentation per level and a branch glyph |
| `Walks.ListingSnoc` | BusinessProblem/Program.cs:268-272 | printing one more root adds its numbered line, then DisplaySubfolders of its subfolders at two spaces |
| `Walks.ListingCount` | BusinessProblem/Program.cs:264-282 | the printed listing has one line per folder of the template |
| `Walks.LeafPaths` | BusinessProblem/Program.cs:154-157 | subfolders without subfolders of their own are created directly under the parent, in order |
| `Walks.LeafLines` | BusinessProblem/Program.cs:277-281 | subfolders without subfolders of their own are printed one line each at the same indentation |
| `Walks.RootPaths` | BusinessProblem/Program.cs:135-138 | a root whose subfolders are all leaves adds its own directory, then one directory per subfolder |
| `Template.FolderTemplate.constructor` | BusinessProblem/Program.cs:285-288 | a new template has no root folders |
| `Template.FolderTemplate.CreateDefault` | BusinessProblem/Program.cs:56-94 | the template created by CreateDefaultTemplate holds the seed folders, which are well formed |
| `Template.FolderTemplate.AddMainFolder` | BusinessProblem/Program.cs:194-213 | reports blank, duplicate or added as the branches of the source do; the new roots are `AddUnique` of the old ones; distinct sibling names are kept |
| `Template.FolderTemplate.AddSubfolder` | BusinessProblem/Program.cs:215-246 | an index outside 1..Count is reported and changes nothing; otherwise it reports the add verdict for that root's subfolders, the new roots are `AddSubfolderAt` of the old ones, and distinct sibling names are kept |
| `Template.FolderTemplate.RemoveFolder` | BusinessProblem/Program.cs:248-262 | an index outside 1..Count is reported and changes nothing; otherwise it reports the removed root's name, exactly that root goes, and distinct sibling names are kept |
| `Template.FolderTemplate.DisplayTemplate` | BusinessProblem/Program.cs:264-273 | the printed lines are the listing of the template, one per folder |
| `Materialize.Disk.constructor` | BusinessProblem/Program.cs:131 | a disk with the given existing directories and no calls yet |
| `Materialize.Disk.CreateDirectory` | BusinessProblem/Program.cs:151 | the path and every missing parent exist afterwards, existing directories are untouched, and the call is logged |
| `Materialize.ReachedAppend` | BusinessProblem/Program.cs:151 | the directories reached by two runs of calls are those of the first and those of the second |
| `Materialize.CreateFolderStructure` | BusinessProblem/Program.cs:148-158 | the calls made are exactly the materialising walk of the folder under the parent path |
| `Materialize.CreateProject` | BusinessProblem/Program.cs:131-138 | the project directory is created, then every root's structure; the directories afterwards are the old ones, the project path's, and those of every path of the walk |
| `Materialize.ReachedContainsPaths` | BusinessProblem/Program.cs:151 | every path passed to CreateDirectory exists afterwards |
| `Materialize.ProjectCreatesEveryFolder` | BusinessProblem/Program.cs:131-138 | the project directory and the directory of every folder of the template exist after creation |
| `Materialize.CreateProjectIdempotent` | BusinessProblem/Program.cs:131-138 | creating the same project again over what the first run left changes no directory |
| `Materialize.CreateProjectParentsFirst` | BusinessProblem/Program.cs:135-138 | in the whole call sequence of a project, each directory's parent is the project's parent or was created by an earlier call |
| `Materialize.ReachedPrefixClosed` | BusinessProblem/Program.cs:151 | if every existing directory's parents exist, that stays true after any sequence of CreateDirectory calls |
| `TemplateTests.DefaultTemplateHasExpectedFolders` | BusinessProblem.Tests/BusinessProblemTests.cs:46-64 | the seed has 4 roots; Dokumentace is found and has 3 subfolders; Materiály is found and has 2 |
| `TemplateTests.AddMainFolderAddsFolder` | BusinessProblem.Tests/BusinessProblemTests.cs:66-81 | adding TestovaciSlozka adds one root, found by name, with no subfolders |
| `TemplateTests.AddSubfolderAddsSubfolder` | BusinessProblem.Tests/BusinessProblemTests.cs:84-98 | adding TestovaciPodsložka under Dokumentace adds one subfolder, found by name |
| `TemplateTests.AddMainFolderIgnoresBlankAndDuplicate` | BusinessProblem.Tests/BusinessProblemTests.cs:180-208 | blank names, a root name in upper case, and a subfolder name in lower case change nothing |
| `TemplateTests.RemoveFirstRoot` | BusinessProblem.Tests/BusinessProblemTests.cs:100-112 | removing root 0 leaves one root fewer, and Dokumentace is gone |
| `TemplateTests.CreateFolderStructureCreatesAllFolders` | BusinessProblem.Tests/BusinessProblemTests.cs:114-137 | after creating the project and every root's structure, the six directories the test checks exist |
| `TemplateTests.CreateFolderStructureScenario` | BusinessProblem.Tests/BusinessProblemTests.cs:119-128 | on a disk holding the test directory, the test's calls are the project path then the eleven folder paths, twelve calls in all, and Fotografie exists |
| `TemplateTests.DefaultListing` | BusinessProblem/Program.cs:264-282 | DisplayTemplate prints exactly these eleven lines for the seed template: roots numbered 1 to 4, subfolders indented with a branch glyph |
| `TemplateTests.RootListing` | BusinessProblem/Program.cs:270-271 | a root whose subfolders are leaves prints its numbered line, then one branch line per subfolder |
| `TemplateTests.DefaultPaths` | BusinessProblem/Program.cs:135-138 | creating the seed template under a project creates exactly these eleven directories, in this order |

## Left out

- The console menus, prompts and messages (BusinessProblem/Program.cs:9-54 and 160-192). Names and indices are parameters, and each edit returns an `Outcome` naming the message it would print.
- The heading line DisplayTemplate prints, and the call to DisplayTemplate at the start of AddSubfolder and RemoveFolder. They are console output only.
- Project creation's prompts, and its handling of an existing project directory: `Directory.Exists`, the overwrite question, `Directory.Delete` and `Directory.GetCurrentDirectory` (Program.cs:96-129). `CreateProject` starts where the project path is known and the directory is to be created.
- Exception handling and I/O failures. `Disk.CreateDirectory` always succeeds. A failure part-way through, and the stop-and-report behaviour, is not modelled.
- Text.EqualsIgnoreCase: case folding covers only ASCII, Latin-1 and Latin Extended-A, which holds the Czech letters. It is not the full Unicode simple upper-case mapping that OrdinalIgnoreCase uses.
- `Path.Combine` separators, rooted segments, invalid characters, `.` and `..` segments, and the trailing dots and spaces Windows trims from a name. A path is a list of segments. A name such as `..` passes `AddMainFolder`, and then `Path.Combine` leaves the project directory. So `PathsUnder` and `WalksAgree` ("lies under the parent") hold for segment lists, not for the file system's resolved paths.
- `null` names. Dafny strings cannot be null, and an empty name takes the same branch.
- In-place mutation of shared `Folder` objects. The source's folders form an owned tree, and `AddSubfolder` changes a root by value inside `baseFolders`, so aliasing between folders is not modelled.
- The test fixture's creation and cleanup of its temporary directory (BusinessProblemTests.cs:13-43). `CreateFolderStructureScenario` starts from a disk where the test directory exists.
