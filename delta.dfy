/** What `update_project` adds to an existing project: the guard against
    removing sequences or shots, the ordered lists of new sequences
    (`seq_xxxx`) and new shots of existing sequences (`seq_xxxx/sh_yyyy`), and
    the folders created for them under both `renders` and `work`. A project
    state is a sequence count `n` and one shot count per sequence; `on, os`
    is the state last stored, `cn, cs` the one requested. */
module Delta {
  import opened TextOps
  import opened Naming
  import opened Scaffold
  import opened Disk
  import opened Expansion

  /** The two branches that hold a copy of every sequence, in the order they are processed. */
  const Branches: seq<string> := [Renders, Work]

  /** The guard of `update_project`: fewer sequences than stored, or fewer shots
      in one of the stored sequences. */
  predicate Shrinks(on: nat, os: seq<nat>, cn: nat, cs: seq<nat>)
    requires |os| == on && |cs| == cn
  {
    cn < on || exists i :: 0 <= i < on && cs[i] < os[i]
  }

  /** The two checks at the start of `update_project`, in their order. */
  method CheckShrink(on: nat, os: seq<nat>, cn: nat, cs: seq<nat>) returns (shrinks: bool)
    requires |os| == on && |cs| == cn
    ensures shrinks <==> Shrinks(on, os, cn, cs)
  {
    if cn < on {
      return true;
    }
    var i := 0;
    while i < on
      invariant i <= on
      invariant forall m :: 0 <= m < i ==> os[m] <= cs[m]
    {
      if cs[i] < os[i] {
        return true;
      }
      i := i + 1;
    }
    return false;
  }

  /** A state never shrinks relative to itself, so going back to the stored state is always accepted. */
  lemma UnchangedNeverShrinks(n: nat, counts: seq<nat>)
    requires |counts| == n
    ensures !Shrinks(n, counts, n, counts)
  {
  }

  /** Growing twice is growing: accepted updates compose. */
  lemma GrowthComposes(an: nat, a: seq<nat>, bn: nat, b: seq<nat>, cn: nat, c: seq<nat>)
    requires |a| == an && |b| == bn && |c| == cn
    requires !Shrinks(an, a, bn, b) && !Shrinks(bn, b, cn, c)
    ensures !Shrinks(an, a, cn, c)
  {
    forall i | 0 <= i < an
      ensures a[i] <= c[i]
    {
      assert a[i] <= b[i] && b[i] <= c[i];
    }
  }

  /** `new_sequences`: `seq_{on+1:04d} .. seq_{cn:04d}`. */
  function NewSequences(on: nat, cn: nat): seq<string>
    decreases cn
  {
    if cn <= on then [] else NewSequences(on, cn - 1) + [SeqName(cn)]
  }

  /** The new shots `seq_{i:04d}/sh_{j:04d}` of sequence `i`, for `lo < j <= hi`. */
  function ShotRange(i: nat, lo: nat, hi: nat): seq<string>
    decreases hi
  {
    if hi <= lo then [] else ShotRange(i, lo, hi - 1) + [ShotPath(i, hi)]
  }

  /** `new_shots` over the first `m` stored sequences, grouped by sequence. */
  function NewShots(os: seq<nat>, cs: seq<nat>, m: nat): seq<string>
    requires m <= |os| && m <= |cs|
  {
    if m == 0 then [] else NewShots(os, cs, m - 1) + ShotRange(m, os[m - 1], cs[m - 1])
  }

  /** The two lists `update_project` builds after its guard has passed. */
  method ComputeDelta(on: nat, os: seq<nat>, cn: nat, cs: seq<nat>) returns (newSeqs: seq<string>, newShots: seq<string>)
    requires |os| == on && |cs| == cn && on <= cn
    ensures newSeqs == NewSequences(on, cn)
    ensures newShots == NewShots(os, cs, on)
  {
    newSeqs := [];
    var i := on;
    while i < cn
      invariant on <= i <= cn
      invariant newSeqs == NewSequences(on, i)
    {
      newSeqs := newSeqs + [SeqName(i + 1)];
      i := i + 1;
    }
    newShots := [];
    i := 0;
    while i < on
      invariant i <= on
      invariant newShots == NewShots(os, cs, i)
    {
      var seqName := SeqName(i + 1);
      var j := os[i];
      ghost var before := newShots;
      while j < cs[i]
        invariant os[i] <= j && (j <= cs[i] || j == os[i])
        invariant newShots == before + ShotRange(i + 1, os[i], j)
      {
        newShots := newShots + [seqName + "/" + ShotName(j + 1)];
        j := j + 1;
      }
      i := i + 1;
    }
  }

  /** `new_sequences` lists exactly the sequences past the stored count, each once, in ascending order. */
  lemma {:induction false} NewSequencesAt(on: nat, cn: nat)
    ensures |NewSequences(on, cn)| == if cn <= on then 0 else cn - on
    ensures forall k :: 0 <= k < |NewSequences(on, cn)| ==> NewSequences(on, cn)[k] == SeqName(on + k + 1)
    decreases cn
  {
    if cn > on {
      NewSequencesAt(on, cn - 1);
    }
  }

  lemma NewSequencesMembership(on: nat, cn: nat, i: nat)
    ensures SeqName(i) in NewSequences(on, cn) <==> on < i <= cn
  {
    NewSequencesAt(on, cn);
    var s := NewSequences(on, cn);
    if SeqName(i) in s {
      var k :| 0 <= k < |s| && s[k] == SeqName(i);
      NamesDistinct(on + k + 1, i);
    }
    if on < i <= cn {
      assert s[i - on - 1] == SeqName(i);
    }
  }

  lemma {:induction false} ShotRangeAt(i: nat, lo: nat, hi: nat)
    ensures |ShotRange(i, lo, hi)| == if hi <= lo then 0 else hi - lo
    ensures forall k :: 0 <= k < |ShotRange(i, lo, hi)| ==> ShotRange(i, lo, hi)[k] == ShotPath(i, lo + k + 1)
    decreases hi
  {
    if hi > lo {
      ShotRangeAt(i, lo, hi - 1);
    }
  }

  /** A shot label names one sequence and one shot: different pairs give different labels. */
  lemma ShotPathInjective(i: nat, j: nat, i': nat, j': nat)
    ensures ShotPath(i, j) == ShotPath(i', j') <==> i == i' && j == j'
  {
    if ShotPath(i, j) == ShotPath(i', j') {
      ShotPathSplit(i, j);
      ShotPathSplit(i', j');
      NamesDistinct(i, i');
      NamesDistinct(j, j');
    }
  }

  lemma ShotRangeMembership(i: nat, lo: nat, hi: nat, s: string)
    ensures s in ShotRange(i, lo, hi) <==> exists j :: lo < j <= hi && s == ShotPath(i, j)
  {
    ShotRangeAt(i, lo, hi);
    var r := ShotRange(i, lo, hi);
    if s in r {
      var k :| 0 <= k < |r| && r[k] == s;
      assert lo < lo + k + 1 <= hi && s == ShotPath(i, lo + k + 1);
    }
    if exists j :: lo < j <= hi && s == ShotPath(i, j) {
      var j :| lo < j <= hi && s == ShotPath(i, j);
      assert r[j - lo - 1] == s;
    }
  }

  /** `new_shots` lists exactly the shots `j` with `os[i] < j <= cs[i]` of each stored sequence `i`. */
  lemma {:induction false} NewShotsMembership(os: seq<nat>, cs: seq<nat>, m: nat, i: nat, j: nat)
    requires m <= |os| && m <= |cs|
    ensures ShotPath(i, j) in NewShots(os, cs, m) <==> 1 <= i <= m && os[i - 1] < j <= cs[i - 1]
  {
    if m > 0 {
      NewShotsMembership(os, cs, m - 1, i, j);
      ShotRangeMembership(m, os[m - 1], cs[m - 1], ShotPath(i, j));
      if ShotPath(i, j) in ShotRange(m, os[m - 1], cs[m - 1]) {
        var j' :| os[m - 1] < j' <= cs[m - 1] && ShotPath(i, j) == ShotPath(m, j');
        ShotPathInjective(i, j, m, j');
      }
    }
  }

  /** Every entry of `new_shots` is the label of some shot. */
  lemma {:induction false} NewShotsAreShotPaths(os: seq<nat>, cs: seq<nat>, m: nat, s: string)
    requires m <= |os| && m <= |cs|
    requires s in NewShots(os, cs, m)
    ensures exists i, j :: 1 <= i <= m && os[i - 1] < j <= cs[i - 1] && s == ShotPath(i, j)
  {
    if s in NewShots(os, cs, m - 1) {
      NewShotsAreShotPaths(os, cs, m - 1, s);
      var i, j :| 1 <= i <= m - 1 && os[i - 1] < j <= cs[i - 1] && s == ShotPath(i, j);
      assert 1 <= i <= m;
    } else {
      ShotRangeMembership(m, os[m - 1], cs[m - 1], s);
    }
  }

  /** The stored sequences' lists come first and in order: the list for the first `k`
      sequences is a prefix of the list for the first `m`. */
  lemma {:induction false} NewShotsPrefix(os: seq<nat>, cs: seq<nat>, k: nat, m: nat)
    requires k <= m <= |os| && m <= |cs|
    ensures NewShots(os, cs, k) <= NewShots(os, cs, m)
    decreases m
  {
    if k < m {
      NewShotsPrefix(os, cs, k, m - 1);
    }
  }

  /** Where shot `j` of sequence `i` sits in `new_shots`: after the new shots of
      sequences `1 .. i-1`, then in ascending shot order. */
  lemma NewShotsPosition(os: seq<nat>, cs: seq<nat>, m: nat, i: nat, j: nat)
    requires m <= |os| && m <= |cs|
    requires 1 <= i <= m && os[i - 1] < j <= cs[i - 1]
    ensures |NewShots(os, cs, i - 1)| + (j - os[i - 1] - 1) < |NewShots(os, cs, m)|
    ensures NewShots(os, cs, m)[|NewShots(os, cs, i - 1)| + (j - os[i - 1] - 1)] == ShotPath(i, j)
  {
    NewShotsPrefix(os, cs, i, m);
    ShotRangeAt(i, os[i - 1], cs[i - 1]);
  }

  /** Nothing is listed exactly when the requested state is the stored one (given the guard passed). */
  lemma NoDeltaIffUnchanged(on: nat, os: seq<nat>, cn: nat, cs: seq<nat>)
    requires |os| == on && |cs| == cn && !Shrinks(on, os, cn, cs)
    ensures NewSequences(on, cn) == [] && NewShots(os, cs, on) == [] <==> cn == on && cs == os
  {
    NewSequencesAt(on, cn);
    if NewShots(os, cs, on) == [] && cn == on {
      forall i | 0 <= i < on
        ensures cs[i] == os[i]
      {
        if os[i] < cs[i] {
          NewShotsMembership(os, cs, on, i + 1, cs[i]);
        }
      }
    }
    if cn == on && cs == os && NewShots(os, cs, on) != [] {
      NewShotsAreShotPaths(os, cs, on, NewShots(os, cs, on)[0]);
    }
  }

  // Folders

  /** `<folder>/<branch>/sequences/seq_{i:04d}`. */
  function SeqDir(folder: Path, branch: string, i: nat): Path
  {
    folder + [branch, Sequences, SeqName(i)]
  }

  /** `<folder>/<branch>/sequences/seq_{i:04d}/sh_{j:04d}`. */
  function ShotDir(folder: Path, branch: string, i: nat, j: nat): Path
  {
    SeqDir(folder, branch, i) + [ShotName(j)]
  }

  /** The shot folders `sh_0001 .. sh_{k:04d}` of sequence `i` in one branch. */
  function FirstShotDirs(folder: Path, branch: string, i: nat, k: nat): set<Path>
  {
    if k == 0 then {} else FirstShotDirs(folder, branch, i, k - 1) + {ShotDir(folder, branch, i, k)}
  }

  /** The folders made in one branch for the new sequences up to `hi`, each with all its shots. */
  function NewSequenceDirs(folder: Path, branch: string, on: nat, hi: nat, cs: seq<nat>): set<Path>
    requires hi <= |cs|
    decreases hi
  {
    if hi <= on then {}
    else NewSequenceDirs(folder, branch, on, hi - 1, cs) + {SeqDir(folder, branch, hi)}
         + FirstShotDirs(folder, branch, hi, cs[hi - 1])
  }

  /** The folders made in one branch for a list of `seq_xxxx/sh_yyyy` labels. */
  function LabelDirs(folder: Path, branch: string, labels: seq<string>): set<Path>
  {
    if labels == [] then {}
    else LabelDirs(folder, branch, labels[..|labels| - 1]) + {folder + [branch, Sequences] + Split(labels[|labels| - 1], "/")}
  }

  /** Everything `update_project` asks `os.makedirs` for, before it re-creates the scaffold. */
  function DeltaTargets(folder: Path, on: nat, os: seq<nat>, cn: nat, cs: seq<nat>): set<Path>
    requires |os| == on && |cs| == cn
  {
    var shots := NewShots(os, cs, if on <= cn then on else cn);
    NewSequenceDirs(folder, Renders, on, cn, cs) + LabelDirs(folder, Renders, shots)
    + NewSequenceDirs(folder, Work, on, cn, cs) + LabelDirs(folder, Work, shots)
  }

  /** The new sequences of one branch: each sequence folder, then its shots
      `sh_0001` up to the requested count, which is found by reading the index
      back out of the sequence name. */
  method CreateNewSequences(fs: set<Path>, folder: Path, branch: string, on: nat, cn: nat, cs: seq<nat>, newSeqs: seq<string>)
    returns (r: set<Path>)
    requires |cs| == cn && on <= cn && newSeqs == NewSequences(on, cn)
    ensures r == fs + WithAncestors(NewSequenceDirs(folder, branch, on, cn, cs))
  {
    NewSequencesAt(on, cn);
    r := fs;
    var k := 0;
    while k < |newSeqs|
      invariant k <= |newSeqs|
      invariant r == fs + WithAncestors(NewSequenceDirs(folder, branch, on, on + k, cs))
    {
      var seqName := newSeqs[k];
      ghost var i := on + k + 1;
      assert seqName == SeqName(i);
      var seqPath := folder + [branch, Sequences, seqName];
      assert seqPath == SeqDir(folder, branch, i);
      r := MakeDirs(r, seqPath);
      SeqNameRoundTrip(i);
      var index := NameIndex(seqName).value;
      r := CreateFirstShots(r, seqPath, cs[index - 1], folder, branch, i);
      ghost var earlier := NewSequenceDirs(folder, branch, on, i - 1, cs);
      AncestorsUnion(earlier, {seqPath});
      AncestorsUnion(earlier + {seqPath}, FirstShotDirs(folder, branch, i, cs[i - 1]));
      k := k + 1;
    }
  }

  /** The inner loop of the new-sequence branch: the shots `sh_0001` up to
      `sh_{count:04d}` inside the sequence folder `seqPath`. */
  method CreateFirstShots(fs: set<Path>, seqPath: Path, count: nat, ghost folder: Path, ghost branch: string, ghost i: nat)
    returns (r: set<Path>)
    requires seqPath == SeqDir(folder, branch, i)
    ensures r == fs + WithAncestors(FirstShotDirs(folder, branch, i, count))
  {
    r := fs;
    var shotNum := 1;
    while shotNum < count + 1
      invariant 1 <= shotNum <= count + 1
      invariant r == fs + WithAncestors(FirstShotDirs(folder, branch, i, shotNum - 1))
    {
      var shotPath := seqPath + [ShotName(shotNum)];
      assert shotPath == ShotDir(folder, branch, i, shotNum);
      r := MakeDirs(r, shotPath);
      AncestorsUnion(FirstShotDirs(folder, branch, i, shotNum - 1), {shotPath});
      shotNum := shotNum + 1;
    }
  }

  /** The new shots of existing sequences in one branch: each label is split at
      `/` into the sequence and the shot folder. */
  method CreateNewShots(fs: set<Path>, folder: Path, branch: string, os: seq<nat>, cs: seq<nat>, m: nat, newShots: seq<string>)
    returns (r: set<Path>)
    requires m <= |os| && m <= |cs| && newShots == NewShots(os, cs, m)
    ensures r == fs + WithAncestors(LabelDirs(folder, branch, newShots))
  {
    r := fs;
    var k := 0;
    while k < |newShots|
      invariant k <= |newShots|
      invariant r == fs + WithAncestors(LabelDirs(folder, branch, newShots[..k]))
    {
      LabelSplitsInTwo(os, cs, m, newShots[k]);
      var parts := Split(newShots[k], "/");
      var shotPath := folder + [branch, Sequences, parts[0], parts[1]];
      assert shotPath == folder + [branch, Sequences] + parts;
      r := MakeDirs(r, shotPath);
      AncestorsUnion(LabelDirs(folder, branch, newShots[..k]), {shotPath});
      assert newShots[..k + 1][..k] == newShots[..k];
      k := k + 1;
    }
    assert newShots[..k] == newShots;
  }

  /** Every new-shot label splits at `/` into exactly two names. */
  lemma LabelSplitsInTwo(os: seq<nat>, cs: seq<nat>, m: nat, s: string)
    requires m <= |os| && m <= |cs| && s in NewShots(os, cs, m)
    ensures |Split(s, "/")| == 2
  {
    NewShotsAreShotPaths(os, cs, m, s);
    var i, j :| 1 <= i <= m && os[i - 1] < j <= cs[i - 1] && s == ShotPath(i, j);
    ShotPathSplit(i, j);
  }

  /** The creation loop of `update_project` over `renders` and `work`. */
  method ApplyDelta(fs: set<Path>, folder: Path, on: nat, os: seq<nat>, cn: nat, cs: seq<nat>,
                    newSeqs: seq<string>, newShots: seq<string>) returns (r: set<Path>)
    requires |os| == on && |cs| == cn && on <= cn
    requires newSeqs == NewSequences(on, cn) && newShots == NewShots(os, cs, on)
    ensures r == fs + WithAncestors(DeltaTargets(folder, on, os, cn, cs))
  {
    r := fs;
    ghost var done: set<Path> := {};
    var b := 0;
    while b < |Branches|
      invariant b <= |Branches|
      invariant r == fs + WithAncestors(done)
      invariant done == if b == 0 then {}
                        else NewSequenceDirs(folder, Renders, on, cn, cs) + LabelDirs(folder, Renders, newShots)
                             + (if b == 1 then {}
                                else NewSequenceDirs(folder, Work, on, cn, cs) + LabelDirs(folder, Work, newShots))
    {
      var branch := Branches[b];
      ghost var before := r;
      r := CreateNewSequences(r, folder, branch, on, cn, cs, newSeqs);
      r := CreateNewShots(r, folder, branch, os, cs, on, newShots);
      AncestorsUnion(done, NewSequenceDirs(folder, branch, on, cn, cs));
      AncestorsUnion(done + NewSequenceDirs(folder, branch, on, cn, cs), LabelDirs(folder, branch, newShots));
      done := done + NewSequenceDirs(folder, branch, on, cn, cs) + LabelDirs(folder, branch, newShots);
      b := b + 1;
    }
  }

  // What the created folders are

  lemma {:induction false} FirstShotDirsMembership(folder: Path, branch: string, i: nat, k: nat, p: Path)
    ensures p in FirstShotDirs(folder, branch, i, k) <==> exists j :: 1 <= j <= k && p == ShotDir(folder, branch, i, j)
  {
    if k > 0 {
      FirstShotDirsMembership(folder, branch, i, k - 1, p);
    }
  }

  /** Every folder made for the new sequences is the folder of a new sequence `i`
      or one of its shot folders. */
  lemma {:induction false} NewSequenceDirsOnly(folder: Path, branch: string, on: nat, hi: nat, cs: seq<nat>, p: Path)
    returns (i: nat)
    requires hi <= |cs| && p in NewSequenceDirs(folder, branch, on, hi, cs)
    ensures on < i <= hi && (p == SeqDir(folder, branch, i) || p in FirstShotDirs(folder, branch, i, cs[i - 1]))
    decreases hi
  {
    if p in NewSequenceDirs(folder, branch, on, hi - 1, cs) {
      i := NewSequenceDirsOnly(folder, branch, on, hi - 1, cs, p);
    } else {
      i := hi;
    }
  }

  /** Each new sequence gets its folder and all its shot folders. */
  lemma {:induction false} NewSequenceDirsAll(folder: Path, branch: string, on: nat, hi: nat, cs: seq<nat>, i: nat)
    requires hi <= |cs| && on < i <= hi
    ensures SeqDir(folder, branch, i) in NewSequenceDirs(folder, branch, on, hi, cs)
    ensures FirstShotDirs(folder, branch, i, cs[i - 1]) <= NewSequenceDirs(folder, branch, on, hi, cs)
    decreases hi
  {
    if i < hi {
      NewSequenceDirsAll(folder, branch, on, hi - 1, cs, i);
    }
  }

  lemma {:induction false} LabelDirsMembership(folder: Path, branch: string, labels: seq<string>, p: Path)
    ensures p in LabelDirs(folder, branch, labels) <==> exists s :: s in labels && p == folder + [branch, Sequences] + Split(s, "/")
  {
    if labels != [] {
      var init := labels[..|labels| - 1];
      LabelDirsMembership(folder, branch, init, p);
      assert labels == init + [labels[|labels| - 1]];
      if p in LabelDirs(folder, branch, init) {
        var s :| s in init && p == folder + [branch, Sequences] + Split(s, "/");
        assert s in labels;
      }
    }
  }

  lemma ShotDirInjective(folder: Path, branch: string, i: nat, j: nat, i': nat, j': nat)
    requires ShotDir(folder, branch, i, j) == ShotDir(folder, branch, i', j')
    ensures i == i' && j == j'
  {
    var p := ShotDir(folder, branch, i, j);
    var q := ShotDir(folder, branch, i', j');
    assert p[|folder| + 2] == SeqName(i) && q[|folder| + 2] == SeqName(i');
    assert p[|folder| + 3] == ShotName(j) && q[|folder| + 3] == ShotName(j');
    NamesDistinct(i, i');
    NamesDistinct(j, j');
  }

  /** The folder a `new_shots` label names. */
  lemma LabelDir(folder: Path, branch: string, i: nat, j: nat)
    ensures folder + [branch, Sequences] + Split(ShotPath(i, j), "/") == ShotDir(folder, branch, i, j)
  {
    ShotPathSplit(i, j);
  }

  /** In one branch, the shot folders made for the `new_shots` labels are exactly
      those of the new shots of the stored sequences. */
  lemma NewShotDirsMembership(folder: Path, branch: string, os: seq<nat>, cs: seq<nat>, m: nat, i: nat, j: nat)
    requires m <= |os| && m <= |cs|
    ensures ShotDir(folder, branch, i, j) in LabelDirs(folder, branch, NewShots(os, cs, m))
        <==> 1 <= i <= m && os[i - 1] < j <= cs[i - 1]
  {
    var p := ShotDir(folder, branch, i, j);
    var labels := NewShots(os, cs, m);
    LabelDirsMembership(folder, branch, labels, p);
    NewShotsMembership(os, cs, m, i, j);
    if p in LabelDirs(folder, branch, labels) {
      var s :| s in labels && p == folder + [branch, Sequences] + Split(s, "/");
      NewShotsAreShotPaths(os, cs, m, s);
      var i', j' :| 1 <= i' <= m && os[i' - 1] < j' <= cs[i' - 1] && s == ShotPath(i', j');
      LabelDir(folder, branch, i', j');
      ShotDirInjective(folder, branch, i, j, i', j');
    }
    if 1 <= i <= m && os[i - 1] < j <= cs[i - 1] {
      LabelDir(folder, branch, i, j);
    }
  }

  /** `update_project` asks for nothing but the new sequence folders, their
      shots, and the new shots of stored sequences, in the two branches. */
  lemma DeltaTargetsOnlyNew(folder: Path, on: nat, os: seq<nat>, cn: nat, cs: seq<nat>, p: Path)
    returns (b: string, i: nat, j: nat)
    requires |os| == on && |cs| == cn && on <= cn
    requires p in DeltaTargets(folder, on, os, cn, cs)
    ensures b in Branches
    ensures || (on < i <= cn && p == SeqDir(folder, b, i))
            || (on < i <= cn && 1 <= j <= cs[i - 1] && p == ShotDir(folder, b, i, j))
            || (1 <= i <= on && os[i - 1] < j <= cs[i - 1] && p == ShotDir(folder, b, i, j))
  {
    var shots := NewShots(os, cs, on);
    assert DeltaTargets(folder, on, os, cn, cs)
        == NewSequenceDirs(folder, Renders, on, cn, cs) + LabelDirs(folder, Renders, shots)
           + NewSequenceDirs(folder, Work, on, cn, cs) + LabelDirs(folder, Work, shots);
    if p in NewSequenceDirs(folder, Renders, on, cn, cs) || p in NewSequenceDirs(folder, Work, on, cn, cs) {
      b := if p in NewSequenceDirs(folder, Renders, on, cn, cs) then Renders else Work;
      i := NewSequenceDirsOnly(folder, b, on, cn, cs, p);
      j := 0;
      if p in FirstShotDirs(folder, b, i, cs[i - 1]) {
        FirstShotDirsMembership(folder, b, i, cs[i - 1], p);
        j :| 1 <= j <= cs[i - 1] && p == ShotDir(folder, b, i, j);
      }
    } else {
      b := if p in LabelDirs(folder, Renders, shots) then Renders else Work;
      i, j := NewShotDirOnly(folder, b, os, cs, on, p);
    }
  }

  /** Every folder made for a new shot label is the folder of a new shot. */
  lemma NewShotDirOnly(folder: Path, b: string, os: seq<nat>, cs: seq<nat>, m: nat, p: Path)
    returns (i: nat, j: nat)
    requires m <= |os| && m <= |cs|
    requires p in LabelDirs(folder, b, NewShots(os, cs, m))
    ensures 1 <= i <= m && os[i - 1] < j <= cs[i - 1] && p == ShotDir(folder, b, i, j)
  {
    LabelDirsMembership(folder, b, NewShots(os, cs, m), p);
    var s :| s in NewShots(os, cs, m) && p == folder + [b, Sequences] + Split(s, "/");
    NewShotsAreShotPaths(os, cs, m, s);
    i, j :| 1 <= i <= m && os[i - 1] < j <= cs[i - 1] && s == ShotPath(i, j);
    LabelDir(folder, b, i, j);
  }

  /** Going from two sequences of one shot each to three sequences with two
      shots in the second: one new sequence, `seq_0003`, and one new shot,
      `seq_0002/sh_0002`. */
  lemma DeltaExample()
    ensures NewSequences(2, 3) == [SeqName(3)]
    ensures NewShots([1, 1], [1, 2], 2) == [ShotPath(2, 2)]
  {
    assert NewShots([1, 1], [1, 2], 1) == [];
    assert ShotRange(2, 1, 2) == [ShotPath(2, 2)];
  }

  /** All sequence folders `1 .. n`, and shot folders `1 .. counts[i-1]` of each, exist under both branches. */
  predicate HasLayout(fs: set<Path>, folder: Path, n: nat, counts: seq<nat>)
    requires |counts| == n
  {
    && (forall b, i :: b in Branches && 1 <= i <= n ==> SeqDir(folder, b, i) in fs)
    && (forall b, i, j :: b in Branches && 1 <= i <= n && 1 <= j <= counts[i - 1] ==> ShotDir(folder, b, i, j) in fs)
  }

  /** Applying the delta to a project laid out for the stored state leaves it laid out for the requested state. */
  lemma ApplyCompletesLayout(fs: set<Path>, folder: Path, on: nat, os: seq<nat>, cn: nat, cs: seq<nat>)
    requires |os| == on && |cs| == cn && !Shrinks(on, os, cn, cs)
    requires HasLayout(fs, folder, on, os)
    ensures HasLayout(fs + WithAncestors(DeltaTargets(folder, on, os, cn, cs)), folder, cn, cs)
  {
    var t := DeltaTargets(folder, on, os, cn, cs);
    var r := fs + WithAncestors(t);
    forall b, i | b in Branches && 1 <= i <= cn
      ensures SeqDir(folder, b, i) in r
    {
      if i > on {
        NewSequenceDirsAll(folder, b, on, cn, cs, i);
        Created(t, SeqDir(folder, b, i));
      }
    }
    forall b, i, j | b in Branches && 1 <= i <= cn && 1 <= j <= cs[i - 1]
      ensures ShotDir(folder, b, i, j) in r
    {
      var p := ShotDir(folder, b, i, j);
      if i > on {
        FirstShotDirsMembership(folder, b, i, cs[i - 1], p);
        NewSequenceDirsAll(folder, b, on, cn, cs, i);
        Created(t, p);
      } else if j > os[i - 1] {
        NewShotDirsMembership(folder, b, os, cs, on, i, j);
        Created(t, p);
      }
    }
  }
}
