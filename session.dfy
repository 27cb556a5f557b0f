/** The project window: what the user has entered (project number and name,
    sequence count, shot count per sequence, notes), the state stored when an
    existing project was opened, and the three actions that touch the disk:
    setting up a new project, opening an existing one and updating it. The
    folders on disk are a set of paths; text files are a map from path to
    contents. The spin boxes clamp what they are given, as Qt's `QSpinBox`
    does: the sequence count to 0 .. 99 (the default range, never changed),
    each shot count to 0 .. 999. */
module Session {
  import opened TextOps
  import opened Naming
  import opened Scaffold
  import opened Disk
  import opened Expansion
  import opened Delta

  const MaxSequences: nat := 99
  const MaxShots: nat := 999

  /** `QSpinBox.setValue` with the range `0 .. hi`. */
  function Clamp(v: int, hi: nat): (r: nat)
    ensures r <= hi
    ensures 0 <= v <= hi ==> r == v
    ensures v < 0 ==> r == 0
    ensures v > hi ==> r == hi
  {
    if v < 0 then 0 else if v > hi then hi else v
  }

  /** `<folder>/work/production/docs`. */
  function DocsDir(folder: Path): Path
  {
    folder + [Work, "production", "docs"]
  }

  /** `<folder>/work/production/docs/project_notes.txt`. */
  function NotesPath(folder: Path): Path
  {
    DocsDir(folder) + ["project_notes.txt"]
  }

  /** The shot counts after `update_shot_inputs` rebuilds the spin boxes for `n`
      sequences: the first ones keep their values, the new ones start at 1. */
  function Resized(current: seq<nat>, n: nat): (r: seq<nat>)
    ensures |r| == n
  {
    if n == 0 then []
    else Resized(current, n - 1) + [if n - 1 < |current| then current[n - 1] else 1]
  }

  lemma {:induction false} ResizedAt(current: seq<nat>, n: nat)
    ensures forall k :: 0 <= k < n ==> Resized(current, n)[k] == if k < |current| then current[k] else 1
  {
    if n > 0 {
      ResizedAt(current, n - 1);
    }
  }

  /** Resizing to the current length changes nothing. */
  lemma ResizedSame(current: seq<nat>)
    ensures Resized(current, |current|) == current
  {
    ResizedAt(current, |current|);
  }

  /** Growing the list and shrinking it back gives the original list; shrinking
      and growing back forgets the dropped values, which come back as 1. */
  lemma ResizedRoundTrip(current: seq<nat>, n: nat)
    ensures n >= |current| ==> Resized(Resized(current, n), |current|) == current
    ensures n < |current| ==> Resized(Resized(current, n), |current|) == current[..n] + Resized([], |current| - n)
  {
    ResizedAt(current, n);
    ResizedAt(Resized(current, n), |current|);
    if n < |current| {
      ResizedAt([], |current| - n);
    }
  }

  /** `update_shot_inputs`: remember the shot counts, drop the spin boxes, and
      make `n` new ones, each starting at 1 and taking the remembered value
      where there was one. */
  method ResizeShotCounts(current: seq<nat>, n: nat) returns (r: seq<nat>)
    requires forall k :: 0 <= k < |current| ==> current[k] <= MaxShots
    ensures r == Resized(current, n)
  {
    r := [];
    var i := 0;
    while i < n
      invariant i <= n
      invariant r == Resized(current, i)
    {
      var v := 1;
      if i < |current| {
        v := Clamp(current[i], MaxShots);
      }
      r := r + [v];
      i := i + 1;
    }
  }

  /** What `update_project` ends in. */
  datatype UpdateOutcome =
    | Rejected        // a sequence or shot would be removed: everything reverts
    | NoChanges       // the notes are unchanged: nothing happens, whatever the counts say
    | Declined        // the user answered No: everything reverts
    | NotesUnwritable // the notes folder is missing: writing the notes raises
    | Applied

  /** What `setup_project` ends in. */
  datatype SetupOutcome =
    | ScaffoldKeyMissing  // the expansion loop raised `KeyError`
    | PreferencesMissing  // no preferences file: the root folder is not set
    | FoldersWithoutNotes // the folders were made, but the notes folder is missing
    | Created

  /** Every shot count a spin box can hold. */
  predicate ShotsInRange(counts: seq<nat>)
  {
    forall k :: 0 <= k < |counts| ==> counts[k] <= MaxShots
  }

  class ProjectWindow {
    var projectNumber: string
    var projectName: string
    var sequenceCount: nat
    var shotCounts: seq<nat>
    var notes: string
    /** Set once a project has been opened; only then is the Update button shown. */
    var projectOpen: bool
    var originalSequenceCount: nat
    var originalShotCounts: seq<nat>
    var originalNotes: string

    /** One shot spin box per sequence, and every value within the spin boxes' ranges. */
    ghost predicate Valid()
      reads this
    {
      && |shotCounts| == sequenceCount <= MaxSequences && ShotsInRange(shotCounts)
      && |originalShotCounts| == originalSequenceCount <= MaxSequences && ShotsInRange(originalShotCounts)
    }

    /** A fresh window: empty fields, no sequences, no shot spin boxes. */
    constructor ()
      ensures Valid() && !projectOpen
      ensures projectNumber == [] && projectName == [] && notes == []
      ensures sequenceCount == 0 && shotCounts == []
    {
      projectNumber := [];
      projectName := [];
      sequenceCount := 0;
      shotCounts := [];
      notes := [];
      projectOpen := false;
      originalSequenceCount := 0;
      originalShotCounts := [];
      originalNotes := [];
    }

    /** Typing into the project number and name fields. */
    method EnterProject(number: string, name: string)
      modifies this
      ensures projectNumber == number && projectName == name
      ensures sequenceCount == old(sequenceCount) && shotCounts == old(shotCounts) && notes == old(notes)
      ensures projectOpen == old(projectOpen) && originalSequenceCount == old(originalSequenceCount)
      ensures originalShotCounts == old(originalShotCounts) && originalNotes == old(originalNotes)
    {
      projectNumber := number;
      projectName := name;
    }

    /** `num_seq_input.setValue(v)`: the value is clamped, and only a real change
        fires `valueChanged`, which rebuilds the shot spin boxes. */
    method SetSequenceCount(v: int)
      requires Valid()
      modifies this
      ensures Valid()
      ensures sequenceCount == Clamp(v, MaxSequences)
      ensures shotCounts == Resized(old(shotCounts), sequenceCount)
      ensures projectNumber == old(projectNumber) && projectName == old(projectName) && notes == old(notes)
      ensures projectOpen == old(projectOpen) && originalSequenceCount == old(originalSequenceCount)
      ensures originalShotCounts == old(originalShotCounts) && originalNotes == old(originalNotes)
    {
      var c := Clamp(v, MaxSequences);
      ResizedSame(shotCounts);
      if c != sequenceCount {
        sequenceCount := c;
        shotCounts := ResizeShotCounts(shotCounts, c);
        ResizedAt(old(shotCounts), c);
      }
    }

    /** `shot_spinboxes[i].setValue(v)`. */
    method SetShotCount(i: nat, v: int)
      requires Valid() && i < |shotCounts|
      modifies this
      ensures Valid()
      ensures shotCounts == old(shotCounts)[i := Clamp(v, MaxShots)]
      ensures projectNumber == old(projectNumber) && projectName == old(projectName) && notes == old(notes)
      ensures sequenceCount == old(sequenceCount) && projectOpen == old(projectOpen)
      ensures originalSequenceCount == old(originalSequenceCount)
      ensures originalShotCounts == old(originalShotCounts) && originalNotes == old(originalNotes)
    {
      shotCounts := shotCounts[i := Clamp(v, MaxShots)];
    }

    /** Typing into the notes box. */
    method SetNotes(text: string)
      modifies this
      ensures notes == text
      ensures projectNumber == old(projectNumber) && projectName == old(projectName)
      ensures sequenceCount == old(sequenceCount) && shotCounts == old(shotCounts) && projectOpen == old(projectOpen)
      ensures originalSequenceCount == old(originalSequenceCount)
      ensures originalShotCounts == old(originalShotCounts) && originalNotes == old(originalNotes)
    {
      notes := text;
    }

    /** `open_existing_project` once a folder is chosen. `folderName` is the
        folder's base name; `listing` holds, in listing order, the number of
        `sh_` entries of each `seq_` folder under `work/sequences` (`None` when
        that folder does not exist); `savedNotes` is the notes file, if any. */
    method OpenExisting(folderName: string, listing: Option<seq<nat>>, savedNotes: Option<string>)
      requires Valid()
      modifies this
      ensures Valid() && projectOpen
      ensures SplitFolderName(folderName).Some? ==>
                projectNumber == SplitFolderName(folderName).value.0 && projectName == SplitFolderName(folderName).value.1
      ensures SplitFolderName(folderName).None? ==>
                projectNumber == old(projectNumber) && projectName == old(projectName)
      ensures listing.None? ==> sequenceCount == old(sequenceCount) && shotCounts == old(shotCounts)
      ensures listing.Some? ==> sequenceCount == Clamp(|listing.value|, MaxSequences)
      ensures listing.Some? ==> forall k :: 0 <= k < sequenceCount ==> shotCounts[k] == Clamp(listing.value[k], MaxShots)
      ensures notes == if savedNotes.Some? then savedNotes.value else old(notes)
      ensures originalSequenceCount == sequenceCount && originalShotCounts == shotCounts && originalNotes == notes
    {
      var parts := SplitFolderName(folderName);
      if parts.Some? {
        projectNumber, projectName := parts.value.0, parts.value.1;
      }
      if listing.Some? {
        var counts := listing.value;
        SetSequenceCount(|counts|);
        var i := 0;
        while i < |counts|
          invariant i <= |counts| && Valid()
          invariant sequenceCount == Clamp(|counts|, MaxSequences) <= |counts|
          invariant forall k :: 0 <= k < i && k < sequenceCount ==> shotCounts[k] == Clamp(counts[k], MaxShots)
          invariant projectNumber == old(projectNumber) || parts.Some?
          invariant parts.Some? ==> projectNumber == parts.value.0 && projectName == parts.value.1
          invariant parts.None? ==> projectNumber == old(projectNumber) && projectName == old(projectName)
          invariant notes == old(notes)
        {
          if i < |shotCounts| {
            SetShotCount(i, counts[i]);
          }
          i := i + 1;
        }
      }
      if savedNotes.Some? {
        notes := savedNotes.value;
      }
      originalNotes := notes;
      projectOpen := true;
      originalSequenceCount := sequenceCount;
      originalShotCounts := shotCounts;
    }

    /** `reset_to_original_values`: the sequence count, the notes and every shot
        spin box go back to what was stored. */
    method ResetToOriginal()
      requires Valid()
      modifies this
      ensures Valid()
      ensures sequenceCount == originalSequenceCount && shotCounts == originalShotCounts && notes == originalNotes
      ensures originalSequenceCount == old(originalSequenceCount) && originalShotCounts == old(originalShotCounts)
      ensures originalNotes == old(originalNotes) && projectOpen == old(projectOpen)
      ensures projectNumber == old(projectNumber) && projectName == old(projectName)
    {
      SetSequenceCount(originalSequenceCount);
      notes := originalNotes;
      var i := 0;
      while i < |shotCounts|
        invariant Valid() && i <= |shotCounts| == originalSequenceCount
        invariant forall k :: 0 <= k < i ==> shotCounts[k] == originalShotCounts[k]
        invariant notes == originalNotes && projectOpen == old(projectOpen)
        invariant originalSequenceCount == old(originalSequenceCount) && originalShotCounts == old(originalShotCounts)
        invariant originalNotes == old(originalNotes)
        invariant projectNumber == old(projectNumber) && projectName == old(projectName)
      {
        if i < |originalShotCounts| {
          SetShotCount(i, originalShotCounts[i]);
        }
        i := i + 1;
      }
    }

    /** `setup_project`: parse the scaffold, install the sequences, make the
        folders under `<root>/<number>_<name>` and write the notes. `root` is the
        first line of the preferences file, `None` when there is none. */
    method Setup(fs: set<Path>, files: map<Path, string>, root: Option<Path>, scaffold: string)
      returns (outcome: SetupOutcome, fs': set<Path>, files': map<Path, string>)
      requires Valid()
      ensures var base := Unwrap(ParseText(scaffold));
              outcome == ScaffoldKeyMissing <==> ExpansionFails(base, shotCounts, sequenceCount)
      ensures outcome == PreferencesMissing <==>
                !ExpansionFails(Unwrap(ParseText(scaffold)), shotCounts, sequenceCount) && root.None?
      ensures outcome in {ScaffoldKeyMissing, PreferencesMissing} ==> fs' == fs && files' == files
      ensures outcome in {FoldersWithoutNotes, Created} ==>
                var base := Unwrap(ParseText(scaffold));
                var folder := root.value + [FolderName(projectNumber, projectName)];
                && root.Some?
                && fs' == Materialize(fs, folder, if sequenceCount == 0 then base else ExpandedTree(base, shotCounts, sequenceCount))
                && (outcome == Created <==> DocsDir(folder) in fs')
                && files' == if outcome == Created then files[NotesPath(folder) := notes] else files
      ensures outcome in {FoldersWithoutNotes, Created} && sequenceCount >= 1 ==>
                HasLayout(fs', root.value + [FolderName(projectNumber, projectName)], sequenceCount, shotCounts)
    {
      var parsed := Parse(scaffold);
      var base := Unwrap(parsed);
      var expanded := Expand(base, shotCounts, sequenceCount);
      if expanded.KeyMissing? {
        return ScaffoldKeyMissing, fs, files;
      }
      if root.None? {
        return PreferencesMissing, fs, files;
      }
      var folder := root.value + [FolderName(projectNumber, projectName)];
      fs' := CreateDirectories(fs, folder, expanded.tree);
      if sequenceCount >= 1 {
        SetupLayout(fs, folder, base, shotCounts, sequenceCount);
      }
      if DocsDir(folder) !in fs' {
        return FoldersWithoutNotes, fs', files;
      }
      files' := files[NotesPath(folder) := notes];
      outcome := Created;
    }

    /** `update_project`. `root` is the first line of the preferences file,
        `scaffold` the scaffold text, and `confirmed` the answer to the
        confirmation question. Only a change of the notes counts as a change:
        new sequences or shots with the notes untouched end in `NoChanges`. */
    method Update(fs: set<Path>, files: map<Path, string>, root: Path, scaffold: string, confirmed: bool)
      returns (outcome: UpdateOutcome, fs': set<Path>, files': map<Path, string>)
      requires Valid() && projectOpen
      modifies this
      ensures Valid() && projectOpen
      ensures projectNumber == old(projectNumber) && projectName == old(projectName)
      ensures outcome == Rejected <==>
                Shrinks(old(originalSequenceCount), old(originalShotCounts), old(sequenceCount), old(shotCounts))
      ensures outcome == NoChanges <==>
                !Shrinks(old(originalSequenceCount), old(originalShotCounts), old(sequenceCount), old(shotCounts))
                && old(notes) == old(originalNotes)
      ensures outcome == Declined <==>
                !Shrinks(old(originalSequenceCount), old(originalShotCounts), old(sequenceCount), old(shotCounts))
                && old(notes) != old(originalNotes) && !confirmed
      ensures var folder := root + [FolderName(projectNumber, projectName)];
              outcome == NotesUnwritable <==>
                !Shrinks(old(originalSequenceCount), old(originalShotCounts), old(sequenceCount), old(shotCounts))
                && old(notes) != old(originalNotes) && confirmed && DocsDir(folder) !in fs
      // every outcome but `Applied` leaves the disk alone
      ensures outcome != Applied ==> fs' == fs && files' == files
      // stored values are kept, and a rejected or declined request is undone
      ensures outcome != Applied ==>
                && originalSequenceCount == old(originalSequenceCount)
                && originalShotCounts == old(originalShotCounts) && originalNotes == old(originalNotes)
      ensures outcome in {Rejected, Declined} ==>
                sequenceCount == originalSequenceCount && shotCounts == originalShotCounts && notes == originalNotes
      ensures outcome in {NoChanges, NotesUnwritable} ==>
                sequenceCount == old(sequenceCount) && shotCounts == old(shotCounts) && notes == old(notes)
      // applied: the new sequences and shots in both branches, then the plain scaffold again
      ensures outcome == Applied ==>
                var folder := root + [FolderName(projectNumber, projectName)];
                && sequenceCount == old(sequenceCount) && shotCounts == old(shotCounts) && notes == old(notes)
                && fs' == Materialize(fs + WithAncestors(DeltaTargets(folder, old(originalSequenceCount),
                                                                      old(originalShotCounts), sequenceCount, shotCounts)),
                                      folder, Unwrap(ParseText(scaffold)))
                && files' == files[NotesPath(folder) := notes]
                && originalSequenceCount == sequenceCount && originalShotCounts == shotCounts && originalNotes == notes
      // a project laid out for the stored state ends up laid out for the requested one
      ensures outcome == Applied ==>
                var folder := root + [FolderName(projectNumber, projectName)];
                HasLayout(fs, folder, old(originalSequenceCount), old(originalShotCounts)) ==>
                HasLayout(fs', folder, sequenceCount, shotCounts)
    {
      var parsed := Parse(scaffold);
      var base := Unwrap(parsed);
      var shrinks := CheckShrink(originalSequenceCount, originalShotCounts, sequenceCount, shotCounts);
      if shrinks {
        ResetToOriginal();
        return Rejected, fs, files;
      }
      var newSeqs, newShots := ComputeDelta(originalSequenceCount, originalShotCounts, sequenceCount, shotCounts);
      var changesMade := notes != originalNotes;
      if !changesMade {
        return NoChanges, fs, files;
      }
      if !confirmed {
        ResetToOriginal();
        return Declined, fs, files;
      }
      var folder := root + [FolderName(projectNumber, projectName)];
      if DocsDir(folder) !in fs {
        return NotesUnwritable, fs, files;
      }
      fs', files' := Commit(fs, files, folder, base, newSeqs, newShots);
      outcome := Applied;
    }

    /** The last part of `update_project`, once the user has confirmed: write the
        notes and store them, create the new sequences and shots in both
        branches, create the plain scaffold again, and store the counts. */
    method Commit(fs: set<Path>, files: map<Path, string>, folder: Path, base: Node,
                  newSeqs: seq<string>, newShots: seq<string>)
      returns (fs': set<Path>, files': map<Path, string>)
      requires Valid() && !Shrinks(originalSequenceCount, originalShotCounts, sequenceCount, shotCounts)
      requires newSeqs == NewSequences(originalSequenceCount, sequenceCount)
      requires newShots == NewShots(originalShotCounts, shotCounts, originalSequenceCount)
      modifies this
      ensures Valid()
      ensures projectNumber == old(projectNumber) && projectName == old(projectName) && projectOpen == old(projectOpen)
      ensures sequenceCount == old(sequenceCount) && shotCounts == old(shotCounts) && notes == old(notes)
      ensures fs' == Materialize(fs + WithAncestors(DeltaTargets(folder, old(originalSequenceCount),
                                                                old(originalShotCounts), sequenceCount, shotCounts)),
                                 folder, base)
      ensures files' == files[NotesPath(folder) := notes]
      ensures originalSequenceCount == sequenceCount && originalShotCounts == shotCounts && originalNotes == notes
      ensures HasLayout(fs, folder, old(originalSequenceCount), old(originalShotCounts)) ==>
                HasLayout(fs', folder, sequenceCount, shotCounts)
    {
      files' := files[NotesPath(folder) := notes];
      originalNotes := notes;
      fs' := ApplyDelta(fs, folder, originalSequenceCount, originalShotCounts, sequenceCount, shotCounts, newSeqs, newShots);
      ghost var afterDelta := fs';
      fs' := CreateDirectories(fs', folder, base);
      MaterializeMonotone(afterDelta, afterDelta, folder, base);
      if HasLayout(fs, folder, originalSequenceCount, originalShotCounts) {
        ApplyCompletesLayout(fs, folder, originalSequenceCount, originalShotCounts, sequenceCount, shotCounts);
        LayoutMonotone(afterDelta, fs', folder, sequenceCount, shotCounts);
      }
      originalSequenceCount := sequenceCount;
      originalShotCounts := shotCounts;
    }
  }

  /** The folders of a sequence and of its shots exist in a tree that has them. */
  lemma SequencePaths(e: Node, b: string, name: string, shot: string)
    requires HasSequencesAt(e, b) && name in SequencesOf(e, b)
    ensures HasPath(e, [b, Sequences, name])
    ensures shot in SequencesOf(e, b)[name].children ==> HasPath(e, [b, Sequences, name, shot])
  {
    var branch := e.children[b];
    var sequences := branch.children[Sequences];
    var s := sequences.children[name];
    assert [b, Sequences, name][1..] == [Sequences, name] && [Sequences, name][1..] == [name];
    assert Get(sequences, [name]) == Get(s, []);
    assert Get(branch, [Sequences, name]) == Get(sequences, [name]);
    assert Get(e, [b, Sequences, name]) == Get(branch, [Sequences, name]);
    if shot in s.children {
      assert [b, Sequences, name, shot][1..] == [Sequences, name, shot];
      assert [Sequences, name, shot][1..] == [name, shot] && [name, shot][1..] == [shot];
      assert Get(s, [shot]) == Get(s.children[shot], []);
      assert Get(sequences, [name, shot]) == Get(s, [shot]);
      assert Get(branch, [Sequences, name, shot]) == Get(sequences, [name, shot]);
      assert Get(e, [b, Sequences, name, shot]) == Get(branch, [Sequences, name, shot]);
    }
  }

  /** Setting up `n >= 1` sequences, when the expansion succeeds, lays the project out
      for them: every sequence folder and every shot folder exists in both branches. */
  lemma SetupLayout(fs: set<Path>, folder: Path, base: Node, counts: seq<nat>, n: nat)
    requires |counts| == n && n >= 1 && !ExpansionFails(base, counts, n)
    ensures HasLayout(Materialize(fs, folder, ExpandedTree(base, counts, n)), folder, n, counts)
  {
    var e := ExpandedTree(base, counts, n);
    var r := Materialize(fs, folder, e);
    forall b, i | b in Branches && 1 <= i <= n
      ensures SeqDir(folder, b, i) in r
    {
      ExpandedContents(base, counts, n, i, 1);
      SequencePaths(e, b, SeqName(i), ShotName(1));
      var p := SeqDir(folder, b, i);
      assert p[|folder|..] == [b, Sequences, SeqName(i)];
      MaterializeMembership(fs, folder, e, p);
    }
    forall b, i, j | b in Branches && 1 <= i <= n && 1 <= j <= counts[i - 1]
      ensures ShotDir(folder, b, i, j) in r
    {
      ExpandedContents(base, counts, n, i, j);
      SequencePaths(e, b, SeqName(i), ShotName(j));
      var p := ShotDir(folder, b, i, j);
      assert p[|folder|..] == [b, Sequences, SeqName(i), ShotName(j)];
      MaterializeMembership(fs, folder, e, p);
    }
  }

  /** More folders keep a layout. */
  lemma LayoutMonotone(fs: set<Path>, gs: set<Path>, folder: Path, n: nat, counts: seq<nat>)
    requires |counts| == n && fs <= gs && HasLayout(fs, folder, n, counts)
    ensures HasLayout(gs, folder, n, counts)
  {
  }
}
