/** Creating a scaffold tree on disk. The file system is modelled as the set
    of folders that exist, each given by its path; `os.makedirs(p,
    exist_ok=True)` adds `p` and every folder above it, and does nothing to
    folders that already exist. */
module Disk {
  import opened Scaffold

  /** The folders `os.makedirs(p, exist_ok=True)` makes sure of, for every `p` in `targets`:
      `p` itself and each of its ancestors (every non-empty prefix). */
  function WithAncestors(targets: set<Path>): set<Path>
  {
    set p, k | p in targets && 1 <= k <= |p| :: p[..k]
  }

  /** `os.makedirs(p, exist_ok=True)`. */
  function MakeDirs(fs: set<Path>, p: Path): set<Path>
  {
    fs + WithAncestors({p})
  }

  /** Every folder `base/name1/.../namek` that lies along the tree `n` placed at `base`. */
  function TreePaths(base: Path, n: Node): set<Path>
    decreases n
  {
    set name, p | name in n.children && p in {base + [name]} + TreePaths(base + [name], n.children[name]) :: p
  }

  /** The folders present after creating the tree `n` at `base` over the folders `fs`. */
  function Materialize(fs: set<Path>, base: Path, n: Node): set<Path>
  {
    fs + WithAncestors(TreePaths(base, n))
  }

  /** `create_directories(base_path, structure)`: for each child, make its
      folder, then create the child's own tree inside it. */
  method CreateDirectories(fs: set<Path>, base: Path, n: Node) returns (r: set<Path>)
    ensures r == Materialize(fs, base, n)
    decreases n
  {
    r := fs;
    var pending := n.children.Keys;
    ghost var done: set<string> := {};
    while pending != {}
      invariant pending + done == n.children.Keys && pending !! done
      invariant r == fs + WithAncestors(ChildPaths(base, n, done))
      decreases pending
    {
      var name :| name in pending;
      var path := base + [name];
      r := MakeDirs(r, path);
      r := CreateDirectories(r, path, n.children[name]);
      AncestorsUnion(ChildPaths(base, n, done), {path});
      AncestorsUnion(ChildPaths(base, n, done) + {path}, TreePaths(path, n.children[name]));
      ChildPathsAdd(base, n, done, name);
      pending := pending - {name};
      done := done + {name};
    }
    assert done == n.children.Keys;
    assert ChildPaths(base, n, done) == TreePaths(base, n);
  }

  /** The part of `TreePaths(base, n)` that lies under the children named in `names`. */
  ghost function ChildPaths(base: Path, n: Node, names: set<string>): set<Path>
  {
    set name, p | name in names && name in n.children && p in {base + [name]} + TreePaths(base + [name], n.children[name]) :: p
  }

  lemma ChildPathsAdd(base: Path, n: Node, names: set<string>, name: string)
    requires name in n.children
    ensures ChildPaths(base, n, names + {name})
         == ChildPaths(base, n, names) + {base + [name]} + TreePaths(base + [name], n.children[name])
  {
    var added := {base + [name]} + TreePaths(base + [name], n.children[name]);
    forall p | p in ChildPaths(base, n, names + {name})
      ensures p in ChildPaths(base, n, names) + added
    {
      var m :| m in names + {name} && m in n.children && p in {base + [m]} + TreePaths(base + [m], n.children[m]);
      if m != name {
        assert m in names;
      }
    }
    forall p | p in ChildPaths(base, n, names) + added
      ensures p in ChildPaths(base, n, names + {name})
    {
      if p in added {
        assert name in names + {name} && name in n.children && p in added;
      } else {
        var m :| m in names && m in n.children && p in {base + [m]} + TreePaths(base + [m], n.children[m]);
        assert m in names + {name};
      }
    }
  }

  /** `os.makedirs` makes every folder it is asked for. */
  lemma Created(targets: set<Path>, p: Path)
    requires p in targets && p != []
    ensures p in WithAncestors(targets)
  {
    assert p[..|p|] == p;
  }

  lemma AncestorsUnion(a: set<Path>, b: set<Path>)
    ensures WithAncestors(a + b) == WithAncestors(a) + WithAncestors(b)
  {
  }

  /** The folders along a tree are exactly the paths that extend `base` by a
      path that exists in the tree. */
  lemma {:induction false} TreePathsMembership(base: Path, n: Node, p: Path)
    ensures p in TreePaths(base, n) <==> base < p && HasPath(n, p[|base|..])
    decreases n
  {
    if p in TreePaths(base, n) {
      var name :| name in n.children && p in {base + [name]} + TreePaths(base + [name], n.children[name]);
      if p == base + [name] {
        assert p[|base|..] == [name];
        assert [name][1..] == [];
      } else {
        TreePathsMembership(base + [name], n.children[name], p);
        assert p[|base|..][0] == name;
        assert p[|base|..][1..] == p[|base| + 1..];
      }
    }
    if base < p && HasPath(n, p[|base|..]) {
      var rel := p[|base|..];
      var name := rel[0];
      assert name in n.children;
      var child := n.children[name];
      if |rel| == 1 {
        assert p == base + [name];
      } else {
        assert base + [name] < p;
        assert p[|base + [name]|..] == rel[1..];
        assert HasPath(child, rel[1..]);
        TreePathsMembership(base + [name], child, p);
      }
      assert p in {base + [name]} + TreePaths(base + [name], child);
      assert p in TreePaths(base, n);
    }
    assert p in TreePaths(base, n) ==> base < p && HasPath(n, p[|base|..]);
  }

  /** Creating a tree adds exactly: the ancestors of `base` (only when the tree
      has at least one folder, as `os.makedirs` makes them on the way to the
      first child) and every `base/name1/.../namek` along the tree. */
  lemma MaterializeMembership(fs: set<Path>, base: Path, n: Node, p: Path)
    ensures p in Materialize(fs, base, n) <==>
              || p in fs
              || (n.children != map[] && p != [] && p <= base)
              || (base < p && HasPath(n, p[|base|..]))
  {
    var w := WithAncestors(TreePaths(base, n));
    if p in w && p !in fs {
      var t, k :| t in TreePaths(base, n) && 1 <= k <= |t| && p == t[..k];
      TreePathsMembership(base, n, t);
      var rel := t[|base|..];
      if k <= |base| {
        assert rel[0] in n.children;
        assert p == base[..k];
      } else {
        PrefixHasPath(n, rel, k - |base|);
        assert p[..|base|] == base;
        assert p[|base|..] == rel[..k - |base|];
      }
    }
    if n.children != map[] && p != [] && p <= base {
      var name :| name in n.children;
      var t := base + [name];
      assert t[|base|..] == [name] && [name][1..] == [];
      assert HasPath(n, [name]);
      assert base < t;
      TreePathsMembership(base, n, t);
      assert p == t[..|p|] && 1 <= |p| <= |t| && t in TreePaths(base, n);
      assert p in w;
    }
    if base < p && HasPath(n, p[|base|..]) {
      TreePathsMembership(base, n, p);
      assert p in TreePaths(base, n) && 1 <= |p| <= |p| && p == p[..|p|];
      assert p in w;
    }
    assert Materialize(fs, base, n) == fs + w;
  }

  /** Creating the same tree twice leaves the same folders as creating it once. */
  lemma MaterializeIdempotent(fs: set<Path>, base: Path, n: Node)
    ensures Materialize(Materialize(fs, base, n), base, n) == Materialize(fs, base, n)
  {
  }

  /** Creating a tree never removes a folder, and more folders before means at least as many after. */
  lemma MaterializeMonotone(fs: set<Path>, gs: set<Path>, base: Path, n: Node)
    ensures fs <= Materialize(fs, base, n)
    ensures fs <= gs ==> Materialize(fs, base, n) <= Materialize(gs, base, n)
  {
  }
}
