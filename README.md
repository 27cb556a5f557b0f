# CG Directory Creator — a Dafny model

The CG Directory Creator builds and extends the folder tree of a VFX
production from a text outline, the directory scaffold. This project models
its core, `cgDirectoryCreator.py`, in seven modules:

- `TextOps` (text.dfy): the Python string operations the tool relies on.
  These are `str.strip` over Python's whitespace set, `str.split`,
  `str.count`, decimal formatting and `int()` of a digit string.
- `Naming` (naming.dfy): the names the tool makes and reads back.
  - The sequence and shot folders `seq_0001`, `sh_0001` (the `{:04d}` format).
  - The labels `seq_xxxx/sh_yyyy` of new shots.
  - The project folder `<number>_<name>` and its split on the first underscore.
- `Scaffold` (scaffold.dfy): `parse_directory_structure`.
  - The tree is a value, `Node(children: map<string, Node>)`.
  - The parser's stack of open dictionaries becomes the path of names from
    the root to the innermost open folder.
  - `Parse` is the loop over lines, proved equal to the fold `ParseText`.
- `Disk` (materialize.dfy): `create_directories`.
  - The disk is the set of folder paths that exist.
  - `os.makedirs(p, exist_ok=True)` adds `p` and all its ancestors.
- `Expansion` (expansion.dfy): the loop in `setup_project`.
  - It installs `seq_0001 .. seq_n` under `work/sequences` and
    `renders/sequences`.
  - Each sequence gets shots `sh_0001 .. sh_k`, all copies of the template shot
    `work/sequences/seq_0001/sh_0001`.
  - The `KeyError` this loop raises is an outcome, with its exact condition.
    With at least one sequence requested, it is raised in three cases:
    `work/sequences` or `renders/sequences` is missing from the scaffold; the
    scaffold has no template shot while sequence 1 has shots; or sequence 1
    has no shots and a later sequence has some.
- `Delta` (delta.dfy): the part of `update_project` that compares the
  requested counts with the stored ones.
  - It rejects any removal.
  - It lists the new sequences and new shots in the source's order.
  - It creates their folders in both branches.
- `Session` (session.dfy): the project window as a class.
  - Its fields are the line edits, spin boxes and notes box, plus the stored
    original state.
  - It has the spin box setters, with Qt's clamping: 0..99 sequences (the
    default range) and 0..999 shots.
  - `update_shot_inputs` and `open_existing_project` (given what it reads
    from disk).
  - `reset_to_original_values`.
  - `setup_project` and `update_project`, with every outcome.

Each operation with a loop in the source is a method with loop invariants.
Each such method is proved equal to a function: `Parse`/`ParseText`,
`CreateDirectories`/`Materialize`, `Expand`/`ExpandedTree`,
`ComputeDelta`/`NewSequences`+`NewShots`, `ApplyDelta`/`DeltaTargets`,
`ResizeShotCounts`/`Resized`. The lemmas then state what those functions
mean.

Where the code does something other than what the tool evidently intends, the model follows the code:

- **Only a change of the notes counts as a change.** In `update_project`
  (cgDirectoryCreator.py:355-369), `changes_made` is set only when the notes
  differ. A request that adds sequences or shots but leaves the notes alone
  ends in "No changes have been made" and creates nothing.
  - `ProjectWindow.Update` states this outcome as an if-and-only-if:
    `NoChanges` exactly when nothing shrinks and the notes are unchanged.
- **Writing the notes comes first.** The notes file is written (lines
  377-382) before any folder is made, outside the `try`. If the `docs` folder
  is missing, the write raises and nothing is created. This is the outcome
  `NotesUnwritable`. The stored notes are not updated in that case.
- **The template shot comes back.** After the new folders, `update_project`
  creates the plain scaffold again (line 405). That scaffold still holds the
  template `seq_0001/sh_0001`, so that folder is (re)created whatever the
  counts are.
- **The template is read after it is overwritten.** The expansion reads
  `work/sequences/seq_0001/sh_0001` on every pass (line 223), after pass 1
  has replaced `seq_0001`. When sequence 1 has no shots, any later sequence
  with shots raises `KeyError` (`Expansion.EmptyFirstSequenceFails`).

## Model

| member | source | states |
|---|---|---|
| TextOps.StripLeftEmpty | cgDirectoryCreator.py:17-18 | stripping from the left leaves nothing exactly when every character is whitespace |
| TextOps.StripRightEmpty | cgDirectoryCreator.py:17-18 | stripping from the right leaves nothing exactly when every character is whitespace |
| TextOps.BlankIffAllSpace | cgDirectoryCreator.py:17-18 | a line is skipped (`not line.strip()`) exactly when it is all whitespace |
| TextOps.StripLeftStopsAtText | cgDirectoryCreator.py:21 | left strip returns a suffix of its input that starts with a non-space |
| TextOps.StripSpaceWord | cgDirectoryCreator.py:21 | stripping `" " + w` returns `w` when `w` has no space at either end |
| TextOps.Split | cgDirectoryCreator.py:12 | `str.split` always returns at least one field, so `[-1]` (lines 21, 393) never fails |
| TextOps.SplitFrom | cgDirectoryCreator.py:12 | the split loop always yields at least one field |
| TextOps.SplitWithoutSeparator | cgDirectoryCreator.py:21 | text that holds no character equal to the separator's first character splits into one field, itself (`SplitWithoutOccurrence` is the general case) |
| TextOps.SplitWithoutOccurrence | cgDirectoryCreator.py:21 | text in which the separator does not occur splits into one field, itself |
| TextOps.NotContainsTail | cgDirectoryCreator.py:20-21 | dropping the first character of a text adds no occurrence of a pattern |
| TextOps.NotContainsAfter | cgDirectoryCreator.py:20-21 | a prefix in which the pattern cannot start adds no occurrence of it |
| TextOps.SplitAtFirst | cgDirectoryCreator.py:400 | `a + sep + b` with no separator in `a` splits into `a` followed by the fields of `b` |
| TextOps.SplitJoin | cgDirectoryCreator.py:346 | joining fields free of the separator and splitting again gives the same fields |
| TextOps.CountWithoutOccurrence | cgDirectoryCreator.py:20 | a text in which the pattern does not occur counts zero occurrences |
| TextOps.CountAfterPattern | cgDirectoryCreator.py:20 | a leading occurrence of the pattern adds exactly one to the count |
| TextOps.CountRepeated | cgDirectoryCreator.py:20 | `n` copies of the pattern in front of text in which it does not occur count exactly `n` (the indent markers of a line) |
| TextOps.Repeat | cgDirectoryCreator.py:221 | `n` copies of `s` have `n` times the length of `s` |
| TextOps.DigitChar | cgDirectoryCreator.py:221 | a digit value below ten formats as a digit character |
| TextOps.Decimal | cgDirectoryCreator.py:221 | formatting a number gives a non-empty string of digits |
| TextOps.DecimalRoundTrip | cgDirectoryCreator.py:393 | the digits of `n` read back as `n` |
| TextOps.LeadingZeros | cgDirectoryCreator.py:393 | leading zeros change neither digit-ness nor the value read back |
| TextOps.DecimalLength | cgDirectoryCreator.py:221 | `n` has at most `k` digits exactly when `n < 10^k` |
| Naming.Pad4 | cgDirectoryCreator.py:221 | `{:04d}` gives only digits, at least four of them |
| Naming.ZeroPadDigits | cgDirectoryCreator.py:221 | zero padding keeps a digit string digits and reaches the width |
| Naming.ZeroPadShape | cgDirectoryCreator.py:221 | zero padding puts exactly as many zeros in front of a shorter `d` as it lacks to reach `width`, and leaves a longer one alone |
| Naming.PadValue | cgDirectoryCreator.py:393 | the padded digits of `i` read back as `i` |
| Naming.PadWidth | cgDirectoryCreator.py:221 | the padded form is exactly four wide iff `i <= 9999` |
| Naming.NameRoundTrip | cgDirectoryCreator.py:393 | `int(name.split('_')[-1])` recovers `i` from `prefix_{i:04d}` for any prefix without `_` |
| Naming.SeqNameRoundTrip | cgDirectoryCreator.py:393 | the index read back from `seq_{i:04d}` is `i` |
| Naming.ShotNameRoundTrip | cgDirectoryCreator.py:394 | the index read back from `sh_{j:04d}` is `j` |
| Naming.NamesDistinct | cgDirectoryCreator.py:221-225 | two sequence (or shot) names are equal exactly when their indices are |
| Naming.NoSlashInNames | cgDirectoryCreator.py:346 | no sequence or shot name holds a `/` |
| Naming.ShotPathSplit | cgDirectoryCreator.py:400 | splitting the label `seq_i/sh_j` on `/` gives the sequence name and the shot name |
| Naming.TemplateNames | cgDirectoryCreator.py:223 | the names of sequence 1 and shot 1 are the template's keys `seq_0001` and `sh_0001` |
| Naming.FolderNameRoundTrip | cgDirectoryCreator.py:269-272 | splitting `number_name` on the first `_` gives back `(number, name)` iff `number` has no `_` |
| Naming.SplitFirstNoSeparator | cgDirectoryCreator.py:270 | `split(c, 1)` on `a + c + b` with no `c` in `a` gives `(a, b)` |
| Naming.SplitFirstParts | cgDirectoryCreator.py:269-270 | the split fails iff `c` is absent; when it succeeds the head has no `c` and head + c + tail is the input |
| Scaffold.Parse | cgDirectoryCreator.py:10-32 | the line loop with its stack computes `ParseText`, and the result has the single root key `JOB#_ProjectName` whatever the text |
| Scaffold.CutStack | cgDirectoryCreator.py:23-24 | the pop loop keeps the root and exactly the first `depth` open folders below it (all of them when fewer are open) |
| Scaffold.ParseLinesStep | cgDirectoryCreator.py:16 | parsing from line `i` on is the step for line `i` followed by parsing the rest |
| Scaffold.UnwrapParsed | cgDirectoryCreator.py:216-217 | `parsed["JOB#_ProjectName"]` then `.pop("JOB#_ProjectName", None)` leaves exactly the outline's top-level entries other than one named `JOB#_ProjectName` |
| Scaffold.PrefixHasPath | cgDirectoryCreator.py:23-24 | every prefix of an existing path exists, so cutting the stack leaves open folders |
| Scaffold.GetAppend | cgDirectoryCreator.py:26 | the folder at `path + [x]` is child `x` of the folder at `path`, if both exist |
| Scaffold.GetAddChild | cgDirectoryCreator.py:26-28 | after `current_dict[name] = {}` the parent holds its old children with `name` set to an empty folder |
| Scaffold.AddChildHasPath | cgDirectoryCreator.py:27-30 | the new entry exists and is empty, so pushing it keeps the stack a chain |
| Scaffold.AddChildFrame | cgDirectoryCreator.py:26-28 | inserting a child changes no folder off the path to it and none outside its subtree |
| Scaffold.StepAttaches | cgDirectoryCreator.py:20-30 | a non-blank line cuts the stack to `min(depth, open)` names below the root, adds an empty child under the top (replacing a same-named sibling) and opens it, so a skipped level attaches to the last opened folder |
| Scaffold.StepSkipsBlank | cgDirectoryCreator.py:17-18 | a whitespace-only line changes nothing |
| Scaffold.ParseKeepsChain | cgDirectoryCreator.py:14-30 | the open folders always form one chain down from the root, never losing the root |
| Scaffold.LineDepth | cgDirectoryCreator.py:20 | the depth of an outline line is its number of indent markers (pipe and two spaces) |
| Scaffold.LineName | cgDirectoryCreator.py:21 | the name of an outline line is the stripped text after `--` |
| Scaffold.LineNotBlank | cgDirectoryCreator.py:17-18 | an outline line is never skipped |
| Scaffold.LineRoundTrip | cgDirectoryCreator.py:16-21 | an outline line reads back as its depth and name and holds no newline, for any name without surrounding blanks, line break, `--` or indent marker (a lone `-` or bar character is allowed) |
| Scaffold.ChainFirst | cgDirectoryCreator.py:26-30 | a depth-0 line adds `A` under the root and opens it |
| Scaffold.ChainSecond | cgDirectoryCreator.py:23-30 | a depth-1 line after it adds `B` under `A` and opens it |
| Scaffold.ChainThird | cgDirectoryCreator.py:23-30 | a depth-2 line after that adds `C` under `B` |
| Scaffold.ChainText | cgDirectoryCreator.py:12 | the three-line outline splits into its three lines |
| Scaffold.JoinThree | cgDirectoryCreator.py:12 | three lines joined by newlines are the outline text the parser splits |
| Scaffold.ParseChain | cgDirectoryCreator.py:10-32 | any three-level outline parses to the chain root → A → B → C |
| Scaffold.ParseChainExample | cgDirectoryCreator.py:10-32 | the literal outline `-- A`, `-- B` with one indent marker, `-- C` with two, parses to root → A → B → C |
| Disk.CreateDirectories | cgDirectoryCreator.py:36-41 | the recursive `makedirs` walk leaves exactly `Materialize(fs, base, n)` |
| Disk.ChildPathsAdd | cgDirectoryCreator.py:38-41 | handling one more child adds that child's folder and its subtree's folders |
| Disk.Created | cgDirectoryCreator.py:40 | `makedirs` makes every folder it is asked for |
| Disk.AncestorsUnion | cgDirectoryCreator.py:38-41 | making two batches of folders is making their union |
| Disk.TreePathsMembership | cgDirectoryCreator.py:36-41 | the folders along a tree are exactly `base` extended by a path that exists in the tree |
| Disk.MaterializeMembership | cgDirectoryCreator.py:36-41 | after creation a folder exists iff it existed before, or is an ancestor of `base` (non-empty tree), or is `base/name1/.../namek` along the tree |
| Disk.MaterializeIdempotent | cgDirectoryCreator.py:40 | creating the same tree twice gives what creating it once gives |
| Disk.MaterializeMonotone | cgDirectoryCreator.py:40 | creation never removes a folder and preserves inclusion |
| Expansion.Expand | cgDirectoryCreator.py:219-226 | the loop raises `KeyError` exactly under `ExpansionFails`; otherwise it yields the scaffold itself when `n == 0` and `ExpandedTree` when `n >= 1` |
| Expansion.TemplateAfter | cgDirectoryCreator.py:223-225 | after `i` passes the template lookup succeeds iff the scaffold has it (`i == 0`) or sequence 1 has a shot (`i > 0`), and it finds the template shot |
| Expansion.FailureStep | cgDirectoryCreator.py:220-225 | pass `i` raises exactly when sequence `i + 1` has shots and the template is gone; a raise ends the loop for good |
| Expansion.ShotMapEmpty | cgDirectoryCreator.py:223-224 | zero shots give an empty shot map |
| Expansion.ShotMapLookup | cgDirectoryCreator.py:223-224 | the shot map holds `sh_j` exactly for `1 <= j <= k`, each the template |
| Expansion.InstallLookup | cgDirectoryCreator.py:220-226 | after `k` passes each `seq_m`, `m <= k`, holds the shot map of its own count |
| Expansion.InstallFrame | cgDirectoryCreator.py:220-226 | names other than `seq_1 .. seq_k` keep their entries |
| Expansion.ExpandedContents | cgDirectoryCreator.py:220-226 | `seq_i` is in both branches with the same shot map, whose keys are exactly `sh_0001 .. sh_{k_i}`, each equal to the template shot |
| Expansion.ExpandedFrame | cgDirectoryCreator.py:220-226 | every other sequence in either branch, every folder of `work` and `renders` other than `sequences` (such as `work/production/docs`, where the notes go), and every other top-level folder is unchanged |
| Expansion.ExpandNothing | cgDirectoryCreator.py:219-220 | with no sequences the loop never raises |
| Expansion.EmptyFirstSequenceFails | cgDirectoryCreator.py:223 | an empty first sequence followed by a sequence with shots always raises |
| Expansion.WellFormedScaffoldExpands | cgDirectoryCreator.py:223 | with the template present and every count positive the loop never raises |
| Delta.CheckShrink | cgDirectoryCreator.py:325-336 | the two checks reject exactly when the sequence count or some original sequence's shot count went down |
| Delta.UnchangedNeverShrinks | cgDirectoryCreator.py:326-336 | the stored state itself is never rejected |
| Delta.GrowthComposes | cgDirectoryCreator.py:326-336 | two accepted updates in a row amount to an accepted update |
| Delta.ComputeDelta | cgDirectoryCreator.py:338-346 | the two loops build exactly `NewSequences` and `NewShots` |
| Delta.NewSequencesAt | cgDirectoryCreator.py:339-340 | `new_sequences` has `cn - on` entries and entry `k` is `seq_{on+k+1}` (ascending) |
| Delta.NewSequencesMembership | cgDirectoryCreator.py:339-340 | `seq_i` is new iff `on < i <= cn` |
| Delta.ShotRangeAt | cgDirectoryCreator.py:345-346 | the inner loop lists `seq_i/sh_j` for `j = lo+1 .. hi` in ascending order |
| Delta.ShotPathInjective | cgDirectoryCreator.py:346 | two shot labels are equal iff their sequence and shot indices are |
| Delta.ShotRangeMembership | cgDirectoryCreator.py:345-346 | a label is in the inner loop's list iff it is `seq_i/sh_j` for some `lo < j <= hi` |
| Delta.NewShotsMembership | cgDirectoryCreator.py:343-346 | `seq_i/sh_j` is a new shot iff `i` is an original sequence and `orig[i] < j <= req[i]` |
| Delta.NewShotsAreShotPaths | cgDirectoryCreator.py:343-346 | every entry of `new_shots` is such a label |
| Delta.NewShotsPrefix | cgDirectoryCreator.py:343-346 | the list for the first `k` sequences is a prefix of the list for the first `m` (grouped by sequence) |
| Delta.NewShotsPosition | cgDirectoryCreator.py:343-346 | `seq_i/sh_j` sits right after all shots of earlier sequences and the earlier shots of sequence `i` |
| Delta.NoDeltaIffUnchanged | cgDirectoryCreator.py:338-346 | both lists are empty iff the requested counts equal the stored ones |
| Delta.CreateNewSequences | cgDirectoryCreator.py:388-396 | each new sequence folder and its shots `sh_0001 .. sh_k` (read back through `int(seq.split('_')[-1])`) are made |
| Delta.CreateFirstShots | cgDirectoryCreator.py:393-396 | the inner loop makes exactly the shot folders `sh_0001 .. sh_k` of the new sequence |
| Delta.CreateNewShots | cgDirectoryCreator.py:399-402 | each listed `seq/sh` label becomes a folder under `<branch>/sequences` |
| Delta.LabelSplitsInTwo | cgDirectoryCreator.py:400 | every new-shot label splits at `/` into exactly two names, so the unpacking never fails |
| Delta.ApplyDelta | cgDirectoryCreator.py:384-402 | the loop over `renders` and `work` adds exactly `DeltaTargets` and their ancestors, removing nothing |
| Delta.FirstShotDirsMembership | cgDirectoryCreator.py:393-396 | the shots made for a new sequence are exactly `sh_1 .. sh_k` |
| Delta.NewSequenceDirsOnly | cgDirectoryCreator.py:388-396 | everything made for new sequences is a new sequence folder or one of its shots |
| Delta.NewSequenceDirsAll | cgDirectoryCreator.py:388-396 | every new sequence folder and all its shot folders are made |
| Delta.LabelDirsMembership | cgDirectoryCreator.py:399-402 | the folders made for labels are exactly the labels' parts under `<branch>/sequences` |
| Delta.ShotDirInjective | cgDirectoryCreator.py:394-401 | distinct shots have distinct folders |
| Delta.LabelDir | cgDirectoryCreator.py:400-401 | the folder of the label `seq_i/sh_j` is the folder of shot `j` of sequence `i` |
| Delta.NewShotDirsMembership | cgDirectoryCreator.py:399-402 | a shot folder is made for an existing sequence iff the shot is new |
| Delta.DeltaTargetsOnlyNew | cgDirectoryCreator.py:384-402 | every folder the update asks for is a new sequence, a shot of one, or a new shot of a stored sequence, in one of the two branches |
| Delta.NewShotDirOnly | cgDirectoryCreator.py:399-402 | every folder made for a new-shot label is the folder of a new shot of a stored sequence |
| Delta.DeltaExample | cgDirectoryCreator.py:339-346 | from 2 sequences of 1 shot to 3 sequences with sequence 2 at 2 shots: new sequences `[seq_0003]`, new shots `[seq_0002/sh_0002]` |
| Delta.ApplyCompletesLayout | cgDirectoryCreator.py:384-402 | a project laid out for the stored counts is laid out for the requested counts once the delta is applied |
| Session.Clamp | cgDirectoryCreator.py:191 | `setValue` saturates to the range `0 .. hi`: an in-range value is kept, a negative one becomes 0 and one above `hi` becomes `hi` (lines 278 and 282 can pass more than 99 sequences or 999 shots) |
| Session.Resized | cgDirectoryCreator.py:187-199 | the rebuilt list has one entry per sequence |
| Session.ResizedAt | cgDirectoryCreator.py:192-195 | entry `k` keeps the old value when there was one and is 1 otherwise |
| Session.ResizedSame | cgDirectoryCreator.py:174-199 | rebuilding for the same count changes nothing |
| Session.ResizedRoundTrip | cgDirectoryCreator.py:174-199 | growing and shrinking back restores the list; shrinking and growing back resets the dropped entries to 1 |
| Session.ResizeShotCounts | cgDirectoryCreator.py:174-199 | the rebuild loop computes `Resized` |
| Session.ProjectWindow.constructor | cgDirectoryCreator.py:90-96 | a new window has empty fields, no sequences and no shot spin boxes, and no project open |
| Session.ProjectWindow.EnterProject | cgDirectoryCreator.py:110-121 | typing sets the number and name and nothing else |
| Session.ProjectWindow.SetSequenceCount | cgDirectoryCreator.py:126-127 | the count is clamped to 0..99, the shot list becomes `Resized(old list, count)`, the rest is unchanged |
| Session.ProjectWindow.SetShotCount | cgDirectoryCreator.py:190-191 | one shot count is set, clamped to 0..999, the rest is unchanged |
| Session.ProjectWindow.SetNotes | cgDirectoryCreator.py:142 | typing sets the notes and nothing else |
| Session.ProjectWindow.OpenExisting | cgDirectoryCreator.py:267-298 | the folder name is split into number and name when it has `_`; the counts come from the listing (clamped); the notes from the file if any; the stored originals become the current values; the project is open |
| Session.ProjectWindow.ResetToOriginal | cgDirectoryCreator.py:300-305 | the sequence count, every shot count and the notes go back to the stored values, which are unchanged |
| Session.ProjectWindow.Setup | cgDirectoryCreator.py:201-250 | `KeyError` exactly under `ExpansionFails`; no root leaves the disk alone; otherwise the expanded tree is created under `<root>/<number>_<name>`, which then holds every sequence and shot folder in both branches, and the notes are written iff the `docs` folder exists |
| Session.ProjectWindow.Update | cgDirectoryCreator.py:307-415 | each outcome under its exact condition (rejected iff something shrinks; no changes iff the notes are unchanged; declined; notes unwritable); only `Applied` touches the disk, adding the new folders and the plain scaffold, writing the notes and storing the requested counts; rejected or declined requests are reverted; a complete layout stays complete |
| Session.ProjectWindow.Commit | cgDirectoryCreator.py:377-410 | after confirmation: the notes file is written and stored, the delta is applied in both branches, the scaffold is created again, the counts are stored |
| Session.SequencePaths | cgDirectoryCreator.py:225-226 | an installed sequence and its shots are folders of the tree |
| Session.SetupLayout | cgDirectoryCreator.py:219-241 | creating the expanded tree makes every `seq_i` and `seq_i/sh_j` folder in both branches |
| Session.LayoutMonotone | cgDirectoryCreator.py:40 | more folders keep a complete layout |

## Left out

- The PyQt user interface (cgDirectoryCreator.py:1-4, 43-87, 98-172, 418-422) is left out. This covers the widgets, the message boxes and the text of the confirmation message, the file dialogs, the settings dialog and the application entry point. Only the data the window carries is modelled.
- Reading and writing the preferences file and reading the scaffold file are not modelled. The root folder (the stripped first line of the preferences file) and the scaffold text are parameters. `setup_project` reads the scaffold next to the script and `update_project` reads it from the working directory; both are the same parameter here.
- In `update_project`, the case where the preferences file is missing is not modelled. The root is a plain parameter of `ProjectWindow.Update`. The source raises `FileNotFoundError` there, after the confirmation.
- In `open_existing_project`, the missing preferences file and the cancelled folder dialog (lines 253-265) are not modelled. Both return before anything changes. `ProjectWindow.OpenExisting` starts once a folder is chosen.
- `os.listdir` (lines 275-282) is not modelled. `ProjectWindow.OpenExisting` takes the shot counts it reads as a parameter, in listing order.
- Random project numbers (`generate_random_num`, lines 169-172) are not modelled. They are nondeterministic; a number is just text given to `EnterProject`.
- Operating-system failures of `os.makedirs` and the `print` logging (lines 404-415) are not modelled. Folder creation is total on the folder set. The one failure that is modelled is writing the notes into a missing `docs` folder.
- Files are a map from path to contents. Writing the notes file is a map update, and the file's encoding is not modelled.
- `Disk.MaterializeMembership`: a path is a sequence of names, each taken as one folder, so the folders it describes are those on disk only when every name in the outline is an ordinary folder name. `os.path.join` and the file system treat other names differently, and the model does not follow them:
  - an empty name (from a line such as `--` or `|  --`) joins to `base` itself, so `makedirs` adds nothing for it and its children are created directly inside `base`, while the model puts them under `base + [""]`;
  - `.` and `..` name `base` and its parent, while the model treats them as new folders;
  - a name holding a separator spans several folders, and an absolute name replaces `base`.
  - the same holds for the project folder `<number>_<name>` that `ProjectWindow.Setup`, `ProjectWindow.Update` and `ProjectWindow.Commit` place under the root: the model takes it as one folder, while `os.path.join` (lines 239-244, 374, 379) splits a number or name holding a `/` into several folders, and an empty or `.`/`..` part is treated as above.
- `Naming.NameIndex`: reads only plain digit strings; the signs, underscores and surrounding whitespace Python's `int()` also accepts are not modelled. The source only reads names it made itself.
- Spin box typing is left out. `ProjectWindow.SetSequenceCount` and `ProjectWindow.SetShotCount` take the value set, and Qt's clamping is modelled.
