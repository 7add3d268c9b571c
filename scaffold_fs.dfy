/** The part of the filesystem the scaffolder (index.js) touches, relative
    to the working directory: a set of directories and a map from file path
    to content. Paths are lists of components; `[]` is the working
    directory itself, which always exists. The four calls index.js makes
    (`fs.access`, `fs.rm` with `recursive` and `force`, `fs.mkdir` with
    `recursive`, `fs.writeFile`) are functions on that tree, and the class
    `Disk` holds the tree the scaffolder changes in place. */
module ScaffoldFs {
  import opened Text

  type Path = seq<string>

  datatype Tree = Tree(dirs: set<Path>, files: map<Path, string>)

  /** Where a phase of the scaffolder stopped: the tree, how many prompts
      it asked, and the path whose mkdir or writeFile threw, if one did. */
  datatype Run = Run(tree: Tree, prompts: nat, failed: Option<Path>)

  function Parent(p: Path): Path
    requires p != []
  {
    p[..|p| - 1]
  }

  predicate IsDir(t: Tree, p: Path)
  {
    p == [] || p in t.dirs
  }

  /** `fs.access(p)` succeeds: `p` is a directory or a file. */
  predicate Exists(t: Tree, p: Path)
  {
    IsDir(t, p) || p in t.files
  }

  /** `p` is `root` or lies below it. */
  predicate Under(root: Path, p: Path)
  {
    |root| <= |p| && p[..|root|] == root
  }

  /** A tree the operating system could hold: nothing is both a file and a
      directory, and the parent of every entry is a directory. */
  predicate WellFormed(t: Tree)
  {
    && [] !in t.dirs && [] !in t.files
    && (forall d :: d in t.dirs ==> d != [] && IsDir(t, Parent(d)) && d !in t.files)
    && (forall f :: f in t.files ==> f != [] && IsDir(t, Parent(f)))
  }

  /** `fs.rm(p, { recursive: true, force: true })`: `p` and everything below
      it disappear; a missing `p` is not an error. */
  function Removed(t: Tree, p: Path): (r: Tree)
    ensures forall q :: q in r.dirs <==> q in t.dirs && !Under(p, q)
    ensures forall q :: q in r.files <==> q in t.files && !Under(p, q)
    ensures forall q :: q in r.files ==> r.files[q] == t.files[q]
  {
    Tree(set d | d in t.dirs && !Under(p, d), map f | f in t.files && !Under(p, f) :: t.files[f])
  }

  /** The non-empty prefixes of `p`: `p` and its ancestors below the
      working directory. */
  function Ancestry(p: Path): set<Path>
  {
    set k | 1 <= k <= |p| :: p[..k]
  }

  /** `fs.mkdir(p, { recursive: true })`: creates `p` and every missing
      ancestor; fails when `p` or one of its ancestors is a file. */
  function MadeDir(t: Tree, p: Path): (r: Option<Tree>)
    ensures r.None? <==> exists k :: 1 <= k <= |p| && p[..k] in t.files
    ensures r.Some? ==> r.value.files == t.files
    ensures r.Some? ==> forall q :: q in r.value.dirs <==> q in t.dirs || (q != [] && Under(q, p))
  {
    if exists k :: 1 <= k <= |p| && p[..k] in t.files then None
    else
      var r := Tree(t.dirs + Ancestry(p), t.files);
      assert forall q :: q in Ancestry(p) <==> q != [] && Under(q, p) by {
        forall q ensures q in Ancestry(p) <==> q != [] && Under(q, p) {
          if q != [] && Under(q, p) {
            assert q == p[..|q|];
          }
        }
      }
      Some(r)
  }

  /** `fs.writeFile(p, content)`: fails unless the parent of `p` is a
      directory and `p` itself is not one; otherwise `p` holds exactly
      `content`, whatever it held before. */
  function Written(t: Tree, p: Path, content: string): (r: Option<Tree>)
    requires p != []
    ensures r.Some? <==> IsDir(t, Parent(p)) && p !in t.dirs
    ensures r.Some? ==> r.value == Tree(t.dirs, t.files[p := content])
  {
    if IsDir(t, Parent(p)) && p !in t.dirs then Some(Tree(t.dirs, t.files[p := content])) else None
  }

  /** Removing a subtree keeps a tree well formed. */
  lemma RemovedWellFormed(t: Tree, p: Path)
    requires WellFormed(t) && p != []
    ensures WellFormed(Removed(t, p))
  {
    var r := Removed(t, p);
    forall q | q in r.dirs + r.files.Keys
      ensures q != [] && IsDir(r, Parent(q))
    {
      assert q != [];
      if Parent(q) != [] && Under(p, Parent(q)) {
        assert Under(p, q);
      }
    }
  }

  /** A successful mkdir keeps a tree well formed. */
  lemma MadeDirWellFormed(t: Tree, p: Path)
    requires WellFormed(t) && MadeDir(t, p).Some?
    ensures WellFormed(MadeDir(t, p).value)
  {
    var r := MadeDir(t, p).value;
    forall d | d in r.dirs
      ensures d != [] && IsDir(r, Parent(d)) && d !in r.files
    {
      if d !in t.dirs {
        assert Under(d, p);
        assert d == p[..|d|];
        if Parent(d) != [] {
          assert Parent(d) == p[..|d| - 1];
        }
      }
    }
  }

  /** `t` and `u` agree at `p`: the same kind of entry, the same content. */
  predicate SameAt(t: Tree, u: Tree, p: Path)
  {
    && (p in t.dirs <==> p in u.dirs)
    && (p in t.files <==> p in u.files)
    && (p in t.files && p in u.files ==> t.files[p] == u.files[p])
  }

  /** What a file holds, if there is one at `p`. */
  function Content(t: Tree, p: Path): Option<string>
  {
    if p in t.files then Some(t.files[p]) else None
  }

  /** The directory at `p` and everything below it, with their contents. */
  function Subtree(t: Tree, p: Path): Tree
  {
    Tree(set d | d in t.dirs && Under(p, d), map f | f in t.files && Under(p, f) :: t.files[f])
  }

  /** Trees that agree everywhere below `p` have the same subtree there. */
  lemma SubtreeAgree(t: Tree, u: Tree, p: Path)
    requires forall q :: Under(p, q) ==> SameAt(t, u, q)
    ensures Subtree(t, p) == Subtree(u, p)
  {
    var a, b := Subtree(t, p), Subtree(u, p);
    assert a.dirs == b.dirs;
    assert a.files.Keys == b.files.Keys;
  }

  /** In a well-formed tree, every ancestor of an existing entry is a
      directory. */
  lemma {:induction false} AncestorsAreDirs(t: Tree, p: Path, k: nat)
    requires WellFormed(t) && (p in t.dirs || p in t.files) && k < |p|
    ensures IsDir(t, p[..k])
    decreases |p| - k
  {
    if k == |p| - 1 {
      assert p[..k] == Parent(p);
    } else {
      var q := Parent(p);
      assert q in t.dirs;
      AncestorsAreDirs(t, q, k);
      assert q[..k] == p[..k];
    }
  }
}

/** The tree as mutable state: index.js's filesystem calls as methods. */
module Disks {
  import opened Text
  import opened ScaffoldFs

  class Disk {
    var dirs: set<Path>
    var files: map<Path, string>

    function State(): Tree
      reads this
    {
      Tree(dirs, files)
    }

    constructor (t: Tree)
      ensures State() == t
    {
      dirs, files := t.dirs, t.files;
    }

    /** `directoryExists` and `fileExists` of index.js:16-32: both answer
        whether `fs.access` succeeds. */
    method Access(p: Path) returns (ok: bool)
      ensures ok == Exists(State(), p)
    {
      ok := p == [] || p in dirs || p in files;
    }

    method Rm(p: Path)
      modifies this
      ensures State() == Removed(old(State()), p)
    {
      var t := Removed(State(), p);
      dirs, files := t.dirs, t.files;
    }

    method Mkdir(p: Path) returns (ok: bool)
      modifies this
      ensures ok == MadeDir(old(State()), p).Some?
      ensures State() == if ok then MadeDir(old(State()), p).value else old(State())
    {
      var r := MadeDir(State(), p);
      ok := r.Some?;
      if ok {
        dirs, files := r.value.dirs, r.value.files;
      }
    }

    method WriteFile(p: Path, content: string) returns (ok: bool)
      requires p != []
      modifies this
      ensures ok == Written(old(State()), p, content).Some?
      ensures State() == if ok then Written(old(State()), p, content).value else old(State())
    {
      ok := (Parent(p) == [] || Parent(p) in dirs) && p !in dirs;
      if ok {
        files := files[p := content];
      }
    }
  }
}
