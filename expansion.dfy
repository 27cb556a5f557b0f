/** Installing the sequences and shots a new project asks for into the parsed
    scaffold (`setup_project`). Sequence `i` gets a folder `seq_{i:04d}` under
    both `work/sequences` and `renders/sequences`, holding shot folders
    `sh_0001 .. sh_{k:04d}` that each copy the work template shot
    `seq_0001/sh_0001`. The template is looked up again on every iteration,
    after the first iteration has already replaced `seq_0001`, and a missing key
    raises `KeyError`; that is the `KeyMissing` outcome below. */
module Expansion {
  import opened TextOps
  import opened Naming
  import opened Scaffold

  /** The outcome of the expansion loop: the finished tree, or the `KeyError` it raised. */
  datatype Outcome = Expanded(tree: Node) | KeyMissing

  const Work: string := "work"
  const Renders: string := "renders"
  const Sequences: string := "sequences"

  /** `branch/sequences` exists. */
  predicate HasSequencesAt(top: Node, branch: string)
  {
    branch in top.children && Sequences in top.children[branch].children
  }

  /** Both `work/sequences` and `renders/sequences` exist. */
  predicate HasSequenceDirs(top: Node)
  {
    HasSequencesAt(top, Work) && HasSequencesAt(top, Renders)
  }

  /** The folders of `top` at `branch/sequences`. */
  function SequencesOf(top: Node, branch: string): map<string, Node>
    requires HasSequencesAt(top, branch)
  {
    top.children[branch].children[Sequences].children
  }

  /** `parsed["work"]["sequences"]["seq_0001"]["sh_0001"]` in the scaffold as parsed. */
  function Template(top: Node): Option<Node>
  {
    if HasSequencesAt(top, Work) && TemplateSequence in SequencesOf(top, Work)
       && TemplateShot in SequencesOf(top, Work)[TemplateSequence].children
    then Some(SequencesOf(top, Work)[TemplateSequence].children[TemplateShot])
    else None
  }

  /** `top` with the folders at `branch/sequences` replaced by `seqs`. */
  function WithSequences(top: Node, branch: string, seqs: map<string, Node>): Node
    requires HasSequencesAt(top, branch)
  {
    var b := top.children[branch];
    Node(top.children[branch := Node(b.children[Sequences := Node(seqs)])])
  }

  /** The names `sh_0001 .. sh_{k:04d}`. */
  function ShotNames(k: nat): set<string>
  {
    set j | 1 <= j <= k :: ShotName(j)
  }

  /** `{f"sh_{j + 1:04d}": t for j in range(k)}`. */
  function ShotMap(k: nat, t: Node): map<string, Node>
  {
    map s | s in ShotNames(k) :: t
  }

  /** The sequence folders after the first `k` iterations, starting from `seqs`. */
  function Install(seqs: map<string, Node>, counts: seq<nat>, k: nat, t: Node): map<string, Node>
    requires k <= |counts|
  {
    if k == 0 then seqs
    else Install(seqs, counts, k - 1, t)[SeqName(k) := Node(ShotMap(counts[k - 1], t))]
  }

  /** When the loop over `n` sequences raises `KeyError`: some branch has no
      `sequences` folder; or the first sequence wants shots but the scaffold has
      no template shot; or the first sequence wants no shots, so `seq_0001` is
      left empty, and a later one wants some. */
  predicate ExpansionFails(top: Node, counts: seq<nat>, n: nat)
    requires n <= |counts|
  {
    n > 0 &&
    (|| !HasSequenceDirs(top)
     || (counts[0] > 0 && Template(top).None?)
     || (counts[0] == 0 && exists i :: 1 <= i < n && counts[i] > 0))
  }

  /** The shot every new shot folder copies (any folder will do when no shot is made). */
  function ShotTemplate(top: Node): Node
  {
    if Template(top).Some? then Template(top).value else Node(map[])
  }

  /** The tree after installing `n` sequences, when the loop does not fail. */
  function ExpandedTree(top: Node, counts: seq<nat>, n: nat): Node
    requires n <= |counts| && HasSequenceDirs(top)
  {
    var t := ShotTemplate(top);
    var withWork := WithSequences(top, Work, Install(SequencesOf(top, Work), counts, n, t));
    WithSequences(withWork, Renders, Install(SequencesOf(top, Renders), counts, n, t))
  }

  /** The expansion loop of `setup_project` over the first `n` entries of `counts`. */
  method Expand(top: Node, counts: seq<nat>, n: nat) returns (r: Outcome)
    requires n <= |counts|
    ensures r.KeyMissing? <==> ExpansionFails(top, counts, n)
    ensures r.Expanded? ==> r.tree == (if n == 0 then top else ExpandedTree(top, counts, n))
  {
    if n == 0 {
      return Expanded(top);
    }
    if !HasSequenceDirs(top) {
      return KeyMissing;
    }
    ghost var t := ShotTemplate(top);
    var ws := SequencesOf(top, Work);
    var rs := SequencesOf(top, Renders);
    var i := 0;
    while i < n
      invariant i <= n
      invariant ws == Install(SequencesOf(top, Work), counts, i, t)
      invariant rs == Install(SequencesOf(top, Renders), counts, i, t)
      invariant !ExpansionFails(top, counts, i)
    {
      var shot := Node(map[]);
      if counts[i] > 0 {
        // `parsed["work"]["sequences"]["seq_0001"]["sh_0001"]`, as the loop has left it
        if TemplateSequence in ws && TemplateShot in ws[TemplateSequence].children {
          shot := ws[TemplateSequence].children[TemplateShot];
        } else {
          TemplateAfter(top, counts, i, t);
          FailureStep(top, counts, i, n);
          return KeyMissing;
        }
        TemplateAfter(top, counts, i, t);
      }
      FailureStep(top, counts, i, i + 1);
      var shots := ShotMap(counts[i], shot);
      assert shots == ShotMap(counts[i], t) by {
        if counts[i] == 0 {
          ShotMapEmpty(shot);
          ShotMapEmpty(t);
        }
      }
      ws := ws[SeqName(i + 1) := Node(shots)];
      rs := rs[SeqName(i + 1) := Node(shots)];
      i := i + 1;
    }
    return Expanded(WithSequences(WithSequences(top, Work, ws), Renders, rs));
  }

  /** What the lookup of `seq_0001/sh_0001` finds in iteration `i`. */
  lemma TemplateAfter(top: Node, counts: seq<nat>, i: nat, t: Node)
    requires i < |counts| && HasSequenceDirs(top) && t == ShotTemplate(top)
    ensures var ws := Install(SequencesOf(top, Work), counts, i, t);
            var found := TemplateSequence in ws && TemplateShot in ws[TemplateSequence].children;
            && (i == 0 ==> (found <==> Template(top).Some?))
            && (i == 0 && found ==> ws[TemplateSequence].children[TemplateShot] == t)
            && (i > 0 ==> (found <==> counts[0] > 0))
            && (i > 0 && found ==> ws[TemplateSequence].children[TemplateShot] == t)
  {
    TemplateNames();
    if i > 0 {
      InstallLookup(SequencesOf(top, Work), counts, i, t, 1);
      ShotMapLookup(counts[0], t, 1);
    }
  }

  /** How the failure condition grows by one iteration: iteration `i` fails
      exactly when it wants shots and the template is not where it looks. */
  lemma FailureStep(top: Node, counts: seq<nat>, i: nat, n: nat)
    requires i < n <= |counts| && HasSequenceDirs(top) && !ExpansionFails(top, counts, i)
    ensures ExpansionFails(top, counts, i + 1) ==> ExpansionFails(top, counts, n)
    ensures ExpansionFails(top, counts, i + 1) <==>
              counts[i] > 0 && (if i == 0 then Template(top).None? else counts[0] == 0)
  {
    if i > 0 && counts[0] == 0 && counts[i] > 0 {
      assert 1 <= i < i + 1 && counts[i] > 0;
    }
    if ExpansionFails(top, counts, i + 1) && i > 0 && counts[0] == 0 {
      var m :| 1 <= m < i + 1 && counts[m] > 0;
      assert 1 <= m < n;
    }
  }

  lemma ShotMapEmpty(t: Node)
    ensures ShotMap(0, t) == map[]
  {
    assert ShotNames(0) == {};
  }

  /** `sh_{j:04d}` is a key of the shot map exactly for `1 <= j <= k`, and every key maps to the template. */
  lemma ShotMapLookup(k: nat, t: Node, j: nat)
    ensures ShotName(j) in ShotMap(k, t) <==> 1 <= j <= k
    ensures ShotName(j) in ShotMap(k, t) ==> ShotMap(k, t)[ShotName(j)] == t
  {
    if ShotName(j) in ShotMap(k, t) {
      var m :| 1 <= m <= k && ShotName(m) == ShotName(j);
      NamesDistinct(m, j);
    }
  }

  /** After `k` iterations: `seq_{m:04d}` holds the shot map of sequence `m` for
      `1 <= m <= k`, and every other folder is as it was. */
  lemma {:induction false} InstallLookup(seqs: map<string, Node>, counts: seq<nat>, k: nat, t: Node, m: nat)
    requires k <= |counts|
    ensures 1 <= m <= k ==> SeqName(m) in Install(seqs, counts, k, t)
    ensures 1 <= m <= k ==> Install(seqs, counts, k, t)[SeqName(m)] == Node(ShotMap(counts[m - 1], t))
  {
    if k > 0 && 1 <= m <= k {
      if m < k {
        NamesDistinct(m, k);
        InstallLookup(seqs, counts, k - 1, t, m);
      }
    }
  }

  /** A folder whose name is not among `seq_0001 .. seq_{k:04d}` is untouched by the first `k` iterations. */
  lemma {:induction false} InstallFrame(seqs: map<string, Node>, counts: seq<nat>, k: nat, t: Node, name: string)
    requires k <= |counts|
    requires forall m :: 1 <= m <= k ==> SeqName(m) != name
    ensures name in Install(seqs, counts, k, t) <==> name in seqs
    ensures name in seqs ==> Install(seqs, counts, k, t)[name] == seqs[name]
  {
    if k > 0 {
      InstallFrame(seqs, counts, k - 1, t, name);
    }
  }

  /** After a successful expansion of `n >= 1` sequences, `work/sequences/seq_{i:04d}`
      and `renders/sequences/seq_{i:04d}` hold the same folder, whose shots are
      exactly `sh_0001 .. sh_{k:04d}` (with `k` the shot count of sequence `i`),
      each a copy of the template shot. */
  lemma ExpandedContents(top: Node, counts: seq<nat>, n: nat, i: nat, j: nat)
    requires n <= |counts| && HasSequenceDirs(top) && !ExpansionFails(top, counts, n)
    requires 1 <= i <= n
    ensures HasSequenceDirs(ExpandedTree(top, counts, n))
    ensures SeqName(i) in SequencesOf(ExpandedTree(top, counts, n), Work)
    ensures SeqName(i) in SequencesOf(ExpandedTree(top, counts, n), Renders)
    ensures SequencesOf(ExpandedTree(top, counts, n), Work)[SeqName(i)]
         == SequencesOf(ExpandedTree(top, counts, n), Renders)[SeqName(i)]
    ensures var shots := SequencesOf(ExpandedTree(top, counts, n), Work)[SeqName(i)].children;
            && (ShotName(j) in shots <==> 1 <= j <= counts[i - 1])
            && (ShotName(j) in shots ==> Some(shots[ShotName(j)]) == Template(top))
  {
    var t := ShotTemplate(top);
    InstallLookup(SequencesOf(top, Work), counts, n, t, i);
    InstallLookup(SequencesOf(top, Renders), counts, n, t, i);
    ShotMapLookup(counts[i - 1], t, j);
    if 1 <= j <= counts[i - 1] {
      assert counts[0] > 0 by {
        if counts[0] == 0 && i > 1 {
          assert 1 <= i - 1 < n && counts[i - 1] > 0;
        }
      }
    }
  }

  /** Sequence folders other than `seq_0001 .. seq_{n:04d}` keep their contents,
      the folders of `work` and `renders` other than `sequences` (such as
      `work/production`) are unchanged, and outside `work` and `renders` the
      tree is unchanged. */
  lemma ExpandedFrame(top: Node, counts: seq<nat>, n: nat, name: string, other: string)
    requires n <= |counts| && HasSequenceDirs(top)
    requires forall m :: 1 <= m <= n ==> SeqName(m) != name
    requires other != Work && other != Renders
    ensures var e := ExpandedTree(top, counts, n);
            && (name in SequencesOf(e, Work) <==> name in SequencesOf(top, Work))
            && (name in SequencesOf(top, Work) ==> SequencesOf(e, Work)[name] == SequencesOf(top, Work)[name])
            && (name in SequencesOf(e, Renders) <==> name in SequencesOf(top, Renders))
            && (name in SequencesOf(top, Renders) ==> SequencesOf(e, Renders)[name] == SequencesOf(top, Renders)[name])
            && (other in e.children <==> other in top.children)
            && (other in top.children ==> e.children[other] == top.children[other])
    ensures var e := ExpandedTree(top, counts, n);
            forall b, x | b in {Work, Renders} && x != Sequences ::
              && (x in e.children[b].children <==> x in top.children[b].children)
              && (x in top.children[b].children ==> e.children[b].children[x] == top.children[b].children[x])
  {
    var t := ShotTemplate(top);
    InstallFrame(SequencesOf(top, Work), counts, n, t, name);
    InstallFrame(SequencesOf(top, Renders), counts, n, t, name);
  }

  /** With no sequences requested the scaffold is used as parsed: the template
      `seq_0001` stays in both branches. */
  lemma ExpandNothing(top: Node, counts: seq<nat>)
    ensures !ExpansionFails(top, counts, 0)
  {
  }

  /** Asking for no shots in the first sequence and some in a later one always raises `KeyError`. */
  lemma EmptyFirstSequenceFails(top: Node, counts: seq<nat>, n: nat, i: nat)
    requires n <= |counts| && 1 <= i < n
    requires counts[0] == 0 && counts[i] > 0
    ensures ExpansionFails(top, counts, n)
  {
  }

  /** With the template shot present and every sequence asking for at least one shot, the loop never fails. */
  lemma WellFormedScaffoldExpands(top: Node, counts: seq<nat>, n: nat)
    requires n <= |counts| && Template(top).Some? && HasSequencesAt(top, Renders)
    requires forall i :: 0 <= i < n ==> counts[i] > 0
    ensures !ExpansionFails(top, counts, n)
  {
  }
}
