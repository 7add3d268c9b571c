/** The first phase of `setupApiStructure` (index.js:47-85): for each
    folder of the list, an existing path triggers a prompt whose answer is
    skip, overwrite or merge (default merge); afterwards a folder that is
    not there is created with `mkdir -p`, and a failing mkdir stops the
    whole setup. The prompt answers are a script: the n-th prompt gets the
    n-th answer, and once the script runs out the default applies. */
module FolderPhase {
  import opened Text
  import opened ScaffoldFs
  import opened Disks

  datatype FolderAction = Skip | Overwrite | Merge

  /** The answer to the n-th folder prompt: `merge` when none was given. */
  function FolderAnswer(answers: seq<FolderAction>, n: nat): (a: FolderAction)
    ensures n < |answers| ==> a == answers[n]
    ensures n >= |answers| ==> a == Merge
  {
    if n < |answers| then answers[n] else Merge
  }

  /** index.js:76-84: mkdir when nothing is at the path; a failure ends the
      phase. */
  function EnsureDir(t: Tree, folder: Path, prompts: nat): Run
  {
    if Exists(t, folder) then Run(t, prompts, None)
    else
      match MadeDir(t, folder)
      case None => Run(t, prompts, Some(folder))
      case Some(made) => Run(made, prompts, None)
  }

  /** One pass of the loop body for `folder`. */
  function FolderStep(t: Tree, folder: Path, answers: seq<FolderAction>, prompts: nat): Run
  {
    if !Exists(t, folder) then EnsureDir(t, folder, prompts)
    else
      match FolderAnswer(answers, prompts)
      case Skip => Run(t, prompts + 1, None)
      case Overwrite => EnsureDir(Removed(t, folder), folder, prompts + 1)
      case Merge => EnsureDir(t, folder, prompts + 1)
  }

  /** The whole loop over `folders`, starting at prompt number `prompts`. */
  function FolderLoop(t: Tree, folders: seq<Path>, answers: seq<FolderAction>, prompts: nat): Run
    decreases |folders|
  {
    if folders == [] then Run(t, prompts, None)
    else
      var r := FolderStep(t, folders[0], answers, prompts);
      if r.failed.Some? then r else FolderLoop(r.tree, folders[1..], answers, r.prompts)
  }

  /** The folder loop of index.js:47-85 on the disk. */
  method PrepareFolders(disk: Disk, folders: seq<Path>, answers: seq<FolderAction>)
    returns (prompts: nat, failed: Option<Path>)
    modifies disk
    ensures Run(disk.State(), prompts, failed) == FolderLoop(old(disk.State()), folders, answers, 0)
  {
    prompts, failed := 0, None;
    var i := 0;
    while i < |folders|
      invariant 0 <= i <= |folders|
      invariant failed == None
      invariant FolderLoop(disk.State(), folders[i..], answers, prompts) == FolderLoop(old(disk.State()), folders, answers, 0)
    {
      var folder := folders[i];
      assert folders[i..][1..] == folders[i + 1..];
      var present := disk.Access(folder);
      if present {
        var action := FolderAnswer(answers, prompts);
        prompts := prompts + 1;
        if action == Skip {
          i := i + 1;
          continue;
        } else if action == Overwrite {
          disk.Rm(folder);
        }
      }
      present := disk.Access(folder);
      if !present {
        var ok := disk.Mkdir(folder);
        if !ok {
          failed := Some(folder);
          return;
        }
      }
      i := i + 1;
    }
  }

  // ---------------------------------------------------------------------
  // What the phase does to each folder.

  datatype Decision = Created | Skipped | Overwritten | Merged

  /** What happens to `folder`, judged on the tree before the phase. */
  function Decide(t: Tree, folder: Path, answers: seq<FolderAction>, prompts: nat): Decision
  {
    if !Exists(t, folder) then Created
    else
      match FolderAnswer(answers, prompts)
      case Skip => Skipped
      case Overwrite => Overwritten
      case Merge => Merged
  }

  /** The decisions for a list of folders, each prompt taking the next
      answer. */
  function Decisions(t: Tree, folders: seq<Path>, answers: seq<FolderAction>, prompts: nat): (ds: seq<Decision>)
    ensures |ds| == |folders|
    decreases |folders|
  {
    if folders == [] then []
    else
      [Decide(t, folders[0], answers, prompts)] +
      Decisions(t, folders[1..], answers, prompts + (if Exists(t, folders[0]) then 1 else 0))
  }

  /** How many of the folders are already there: one prompt each. */
  function PreExisting(t: Tree, folders: seq<Path>): nat
    decreases |folders|
  {
    if folders == [] then 0
    else (if Exists(t, folders[0]) then 1 else 0) + PreExisting(t, folders[1..])
  }

  /** The subtree at `folder` after the phase: untouched when skipped or
      merged, a lone empty directory when created or overwritten. */
  function Expected(t: Tree, folder: Path, d: Decision): Tree
  {
    if d == Skipped || d == Merged then Subtree(t, folder) else Tree({folder}, map[])
  }

  /** Neither path lies below the other. */
  predicate Outside(f: Path, p: Path)
  {
    !Under(f, p) && !Under(p, f)
  }

  /** Non-empty folders, none of them inside another (as the four of
      index.js:40-45). */
  predicate Independent(folders: seq<Path>)
  {
    && (forall i :: 0 <= i < |folders| ==> folders[i] != [])
    && (forall i, j :: 0 <= i < |folders| && 0 <= j < |folders| && i != j ==> !Under(folders[i], folders[j]))
  }

  /** No file sits on a proper ancestor of `f`, so `mkdir -p f` cannot hit
      one. */
  predicate NoFileAbove(t: Tree, f: Path)
  {
    forall k :: 1 <= k < |f| ==> f[..k] !in t.files
  }

  predicate ClearPath(t: Tree, folders: seq<Path>)
  {
    forall i :: 0 <= i < |folders| ==> NoFileAbove(t, folders[i])
  }

  /** Files are only ever removed, never created or changed. */
  predicate FilesShrink(t: Tree, u: Tree)
  {
    forall p :: p in u.files ==> p in t.files && u.files[p] == t.files[p]
  }

  /** Two prefixes of one path are prefixes of each other. */
  lemma PrefixesComparable(a: Path, b: Path, p: Path)
    ensures Under(a, p) && Under(b, p) ==> Under(a, b) || Under(b, a)
  {
    if Under(a, p) && Under(b, p) {
      if |a| <= |b| {
        assert p[..|b|][..|a|] == p[..|a|];
      } else {
        assert p[..|a|][..|b|] == p[..|b|];
      }
    }
  }

  lemma UnderTransitive(a: Path, b: Path, c: Path)
    ensures Under(a, b) && Under(b, c) ==> Under(a, c)
  {
    if Under(a, b) && Under(b, c) {
      assert c[..|b|][..|a|] == c[..|a|];
    }
  }

  /** Whatever lies below `f` is outside a folder independent of `f`. */
  lemma UnderIndependent(f: Path, g: Path, p: Path)
    requires !Under(f, g) && !Under(g, f) && Under(f, p)
    ensures Outside(g, p)
  {
    PrefixesComparable(f, g, p);
    UnderTransitive(f, p, g);
  }

  /** A step changes nothing outside its folder and the folder's
      ancestors. */
  lemma StepOutside(t: Tree, f: Path, answers: seq<FolderAction>, prompts: nat, p: Path)
    requires Outside(f, p)
    ensures SameAt(t, FolderStep(t, f, answers, prompts).tree, p)
  {
  }

  lemma StepFiles(t: Tree, f: Path, answers: seq<FolderAction>, prompts: nat)
    ensures FilesShrink(t, FolderStep(t, f, answers, prompts).tree)
  {
  }

  /** Nothing lies below a path that does not exist. */
  lemma NothingBelowAbsent(t: Tree, f: Path)
    requires WellFormed(t) && f != [] && !Exists(t, f)
    ensures forall q :: Under(f, q) ==> q !in t.dirs && q !in t.files
  {
    forall q | Under(f, q)
      ensures q !in t.dirs && q !in t.files
    {
      if |q| > |f| {
        if q in t.dirs || q in t.files {
          AncestorsAreDirs(t, q, |f|);
        }
      } else {
        assert q == f;
      }
    }
  }

  /** A directory made where nothing was holds nothing. */
  lemma FreshDirSubtree(t: Tree, f: Path)
    requires f != [] && MadeDir(t, f).Some?
    requires forall q :: Under(f, q) ==> q !in t.dirs && q !in t.files
    ensures Subtree(MadeDir(t, f).value, f) == Tree({f}, map[])
  {
    var s := Subtree(MadeDir(t, f).value, f);
    forall q
      ensures q in s.dirs <==> q == f
    {
      if q in s.dirs {
        assert Under(q, f) && Under(f, q);
        assert q == f[..|q|];
      }
      if q == f {
        assert f[..|f|] == f;
      }
    }
    assert s.dirs == {f};
    assert s.files.Keys == {};
  }

  lemma MadeDirOk(t: Tree, f: Path)
    requires f != [] && NoFileAbove(t, f) && f !in t.files
    ensures MadeDir(t, f).Some?
  {
    assert f[..|f|] == f;
  }

  /** One step on a well-formed tree: it never fails when no file is in
      the way, leaves the folder in place, keeps the tree well formed, and
      leaves under the folder what its decision says. */
  lemma StepResult(t: Tree, f: Path, answers: seq<FolderAction>, prompts: nat)
    requires WellFormed(t) && f != [] && NoFileAbove(t, f)
    ensures var r := FolderStep(t, f, answers, prompts);
      && r.failed.None?
      && WellFormed(r.tree)
      && Exists(r.tree, f)
      && r.prompts == prompts + (if Exists(t, f) then 1 else 0)
      && Subtree(r.tree, f) == Expected(t, f, Decide(t, f, answers, prompts))
  {
    var d := Decide(t, f, answers, prompts);
    if d == Created {
      NothingBelowAbsent(t, f);
      MadeDirOk(t, f);
      MadeDirWellFormed(t, f);
      FreshDirSubtree(t, f);
    } else if d == Overwritten {
      var u := Removed(t, f);
      RemovedWellFormed(t, f);
      assert Under(f, f) by { assert f[..|f|] == f; }
      assert !Exists(u, f);
      MadeDirOk(u, f);
      MadeDirWellFormed(u, f);
      FreshDirSubtree(u, f);
    }
  }

  /** The rest of the loop changes nothing outside its own folders. */
  lemma {:induction false} LoopOutside(t: Tree, folders: seq<Path>, answers: seq<FolderAction>, prompts: nat, p: Path)
    requires forall j :: 0 <= j < |folders| ==> Outside(folders[j], p)
    ensures SameAt(t, FolderLoop(t, folders, answers, prompts).tree, p)
    decreases |folders|
  {
    if folders != [] {
      var r := FolderStep(t, folders[0], answers, prompts);
      StepOutside(t, folders[0], answers, prompts, p);
      if r.failed.None? {
        assert forall j :: 0 <= j < |folders[1..]| ==> folders[1..][j] == folders[j + 1];
        LoopOutside(r.tree, folders[1..], answers, r.prompts, p);
      }
    }
  }

  lemma {:induction false} LoopFiles(t: Tree, folders: seq<Path>, answers: seq<FolderAction>, prompts: nat)
    ensures FilesShrink(t, FolderLoop(t, folders, answers, prompts).tree)
    decreases |folders|
  {
    if folders != [] {
      var r := FolderStep(t, folders[0], answers, prompts);
      StepFiles(t, folders[0], answers, prompts);
      if r.failed.None? {
        LoopFiles(r.tree, folders[1..], answers, r.prompts);
      }
    }
  }

  /** Decisions depend only on which folders exist. */
  lemma {:induction false} DecisionsAgree(t: Tree, u: Tree, folders: seq<Path>, answers: seq<FolderAction>, prompts: nat)
    requires forall j :: 0 <= j < |folders| ==> (Exists(t, folders[j]) <==> Exists(u, folders[j]))
    ensures Decisions(t, folders, answers, prompts) == Decisions(u, folders, answers, prompts)
    ensures PreExisting(t, folders) == PreExisting(u, folders)
    decreases |folders|
  {
    if folders != [] {
      assert forall j :: 0 <= j < |folders[1..]| ==> folders[1..][j] == folders[j + 1];
      DecisionsAgree(t, u, folders[1..], answers, prompts + (if Exists(t, folders[0]) then 1 else 0));
    }
  }

  /** After the first step: the step's own folder is settled, and the
      rest of the list sees the same folders and subtrees as before. */
  lemma FirstStep(t: Tree, folders: seq<Path>, answers: seq<FolderAction>, prompts: nat)
    requires WellFormed(t) && Independent(folders) && ClearPath(t, folders) && folders != []
    ensures var r1 := FolderStep(t, folders[0], answers, prompts);
      var rest := folders[1..];
      && r1.failed.None?
      && WellFormed(r1.tree)
      && Independent(rest)
      && ClearPath(r1.tree, rest)
      && r1.prompts == prompts + (if Exists(t, folders[0]) then 1 else 0)
      && Exists(r1.tree, folders[0])
      && Subtree(r1.tree, folders[0]) == Expected(t, folders[0], Decide(t, folders[0], answers, prompts))
      && (forall j :: 0 <= j < |rest| ==> (Exists(r1.tree, rest[j]) <==> Exists(t, rest[j])))
      && (forall j :: 0 <= j < |rest| ==> Subtree(r1.tree, rest[j]) == Subtree(t, rest[j]))
  {
    var f, rest := folders[0], folders[1..];
    assert forall j :: 0 <= j < |rest| ==> rest[j] == folders[j + 1];
    StepResult(t, f, answers, prompts);
    var t1 := FolderStep(t, f, answers, prompts).tree;
    StepFiles(t, f, answers, prompts);
    forall j | 0 <= j < |rest|
      ensures Exists(t1, rest[j]) == Exists(t, rest[j])
      ensures Subtree(t1, rest[j]) == Subtree(t, rest[j])
    {
      forall p | Under(rest[j], p)
        ensures SameAt(t, t1, p)
      {
        UnderIndependent(rest[j], f, p);
        StepOutside(t, f, answers, prompts, p);
      }
      assert Under(rest[j], rest[j]) by { assert rest[j][..|rest[j]|] == rest[j]; }
      SubtreeAgree(t, t1, rest[j]);
    }
  }

  /** The rest of the loop leaves an independent folder's subtree alone. */
  lemma RestKeeps(t: Tree, f: Path, rest: seq<Path>, answers: seq<FolderAction>, prompts: nat)
    requires f != [] && forall j :: 0 <= j < |rest| ==> !Under(f, rest[j]) && !Under(rest[j], f)
    ensures var u := FolderLoop(t, rest, answers, prompts).tree;
      (Exists(u, f) <==> Exists(t, f)) && Subtree(u, f) == Subtree(t, f)
  {
    var u := FolderLoop(t, rest, answers, prompts).tree;
    forall p | Under(f, p)
      ensures SameAt(t, u, p)
    {
      forall j | 0 <= j < |rest|
        ensures Outside(rest[j], p)
      {
        UnderIndependent(f, rest[j], p);
      }
      LoopOutside(t, rest, answers, prompts, p);
    }
    SubtreeAgree(t, u, f);
    assert Under(f, f) by { assert f[..|f|] == f; }
  }

  /** The decisions and prompts for the whole list are the first
      folder's, then those for the rest judged on any tree `t1` where the
      rest's folders exist exactly as in `t`, from the next prompt on. */
  lemma StepDecisions(t: Tree, t1: Tree, folders: seq<Path>, answers: seq<FolderAction>, prompts: nat, next: nat)
    requires folders != []
    requires next == prompts + (if Exists(t, folders[0]) then 1 else 0)
    requires forall j :: 0 <= j < |folders[1..]| ==> (Exists(t1, folders[1..][j]) <==> Exists(t, folders[1..][j]))
    ensures Decisions(t, folders, answers, prompts) == [Decide(t, folders[0], answers, prompts)] + Decisions(t1, folders[1..], answers, next)
    ensures prompts + PreExisting(t, folders) == next + PreExisting(t1, folders[1..])
  {
    DecisionsAgree(t1, t, folders[1..], answers, next);
  }

  /** The outcome for the first folder and the outcomes for the rest,
      judged on the tree after the first step, make the outcome for the
      whole list when the first step left the rest's subtrees alone. */
  lemma Assemble(t: Tree, t1: Tree, u: Tree, f: Path, rest: seq<Path>, d0: Decision, dsRest: seq<Decision>)
    requires |dsRest| == |rest|
    requires Exists(u, f) && Subtree(u, f) == Expected(t, f, d0)
    requires forall j :: 0 <= j < |rest| ==> Exists(u, rest[j]) && Subtree(u, rest[j]) == Expected(t1, rest[j], dsRest[j])
    requires forall j :: 0 <= j < |rest| ==> Subtree(t1, rest[j]) == Subtree(t, rest[j])
    ensures var folders, ds := [f] + rest, [d0] + dsRest;
      forall k :: 0 <= k < |folders| ==> Exists(u, folders[k]) && Subtree(u, folders[k]) == Expected(t, folders[k], ds[k])
  {
    var folders, ds := [f] + rest, [d0] + dsRest;
    forall k | 1 <= k < |folders|
      ensures Exists(u, folders[k]) && Subtree(u, folders[k]) == Expected(t, folders[k], ds[k])
    {
      assert folders[k] == rest[k - 1] && ds[k] == dsRest[k - 1];
    }
  }

  /** The folder phase over independent folders on a well-formed tree with
      no file in the way: it completes; it asks one prompt per folder that
      was already there; every folder exists afterwards; a skipped or
      merged folder keeps its whole subtree as it was, and a created or
      overwritten one is an empty directory; the tree stays well formed. */
  lemma {:induction false} FolderLoopOutcome(t: Tree, folders: seq<Path>, answers: seq<FolderAction>, prompts: nat)
    requires WellFormed(t) && Independent(folders) && ClearPath(t, folders)
    ensures var r := FolderLoop(t, folders, answers, prompts);
      var ds := Decisions(t, folders, answers, prompts);
      && r.failed.None?
      && WellFormed(r.tree)
      && r.prompts == prompts + PreExisting(t, folders)
      && forall k :: 0 <= k < |folders| ==>
           Exists(r.tree, folders[k]) && Subtree(r.tree, folders[k]) == Expected(t, folders[k], ds[k])
    decreases |folders|
  {
    if folders != [] {
      var f, rest := folders[0], folders[1..];
      FirstStep(t, folders, answers, prompts);
      var r1 := FolderStep(t, f, answers, prompts);
      StepDecisions(t, r1.tree, folders, answers, prompts, r1.prompts);
      FolderLoopOutcome(r1.tree, rest, answers, r1.prompts);
      RestKeeps(r1.tree, f, rest, answers, r1.prompts);
      var u := FolderLoop(r1.tree, rest, answers, r1.prompts).tree;
      Assemble(t, r1.tree, u, f, rest, Decide(t, f, answers, prompts), Decisions(r1.tree, rest, answers, r1.prompts));
      assert folders == [f] + rest;
    }
  }
}
