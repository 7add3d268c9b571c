/** The second phase of `setupApiStructure` (index.js:581-619): for each
    template file, a missing parent directory skips the file; an existing
    file triggers a prompt whose answer is skip or overwrite (default
    skip); otherwise the template is written, and a failing write stops the
    whole setup. The n-th prompt gets the n-th scripted answer, and the
    default once the script runs out. */
module FilePhase {
  import opened Text
  import opened ScaffoldFs
  import opened Disks

  datatype FileAction = SkipFile | OverwriteFile

  /** The answer to the n-th file prompt: `skip` when none was given. */
  function FileAnswer(answers: seq<FileAction>, n: nat): (a: FileAction)
    ensures n < |answers| ==> a == answers[n]
    ensures n >= |answers| ==> a == SkipFile
  {
    if n < |answers| then answers[n] else SkipFile
  }

  /** One entry of the `files` list: where it goes and what it holds. */
  datatype TemplateFile = TemplateFile(path: Path, content: string)

  predicate Placeable(files: seq<TemplateFile>)
  {
    forall i :: 0 <= i < |files| ==> files[i].path != []
  }

  /** One pass of the loop body for `file`. The parent test is
      `directoryExists`, which is `fs.access`: a file at the parent path
      passes it too. */
  function FileStep(t: Tree, file: TemplateFile, answers: seq<FileAction>, prompts: nat): Run
    requires file.path != []
  {
    if !Exists(t, Parent(file.path)) then Run(t, prompts, None)
    else if Exists(t, file.path) && FileAnswer(answers, prompts) == SkipFile then Run(t, prompts + 1, None)
    else
      var used := if Exists(t, file.path) then prompts + 1 else prompts;
      match Written(t, file.path, file.content)
      case None => Run(t, used, Some(file.path))
      case Some(written) => Run(written, used, None)
  }

  /** The whole loop over `files`, starting at prompt number `prompts`. */
  function FileLoop(t: Tree, files: seq<TemplateFile>, answers: seq<FileAction>, prompts: nat): Run
    requires Placeable(files)
    decreases |files|
  {
    if files == [] then Run(t, prompts, None)
    else
      var r := FileStep(t, files[0], answers, prompts);
      if r.failed.Some? then r else FileLoop(r.tree, files[1..], answers, r.prompts)
  }

  /** The file loop of index.js:581-619 on the disk. */
  method WriteTemplates(disk: Disk, files: seq<TemplateFile>, answers: seq<FileAction>)
    returns (prompts: nat, failed: Option<Path>)
    requires Placeable(files)
    modifies disk
    ensures Run(disk.State(), prompts, failed) == FileLoop(old(disk.State()), files, answers, 0)
  {
    prompts, failed := 0, None;
    var i := 0;
    while i < |files|
      invariant 0 <= i <= |files|
      invariant failed == None
      invariant FileLoop(disk.State(), files[i..], answers, prompts) == FileLoop(old(disk.State()), files, answers, 0)
    {
      var file := files[i];
      assert files[i..][1..] == files[i + 1..];
      var dirPresent := disk.Access(Parent(file.path));
      if !dirPresent {
        i := i + 1;
        continue;
      }
      var present := disk.Access(file.path);
      if present {
        var action := FileAnswer(answers, prompts);
        prompts := prompts + 1;
        if action == SkipFile {
          i := i + 1;
          continue;
        }
      }
      var ok := disk.WriteFile(file.path, file.content);
      if !ok {
        failed := Some(file.path);
        return;
      }
      i := i + 1;
    }
  }

  // ---------------------------------------------------------------------
  // What the phase does to each file.

  datatype FileDecision = NoDirectory | Fresh | Kept | Replaced

  function FileDecide(t: Tree, file: TemplateFile, answers: seq<FileAction>, prompts: nat): FileDecision
    requires file.path != []
  {
    if !Exists(t, Parent(file.path)) then NoDirectory
    else if !Exists(t, file.path) then Fresh
    else if FileAnswer(answers, prompts) == SkipFile then Kept
    else Replaced
  }

  /** A prompt is asked for a file whose directory and file both exist. */
  predicate Prompted(t: Tree, file: TemplateFile)
    requires file.path != []
  {
    Exists(t, Parent(file.path)) && Exists(t, file.path)
  }

  function FileDecisions(t: Tree, files: seq<TemplateFile>, answers: seq<FileAction>, prompts: nat): (ds: seq<FileDecision>)
    requires Placeable(files)
    ensures |ds| == |files|
    decreases |files|
  {
    if files == [] then []
    else
      [FileDecide(t, files[0], answers, prompts)] +
      FileDecisions(t, files[1..], answers, prompts + (if Prompted(t, files[0]) then 1 else 0))
  }

  /** How many prompts the loop asks. */
  function PromptCount(t: Tree, files: seq<TemplateFile>): nat
    requires Placeable(files)
    decreases |files|
  {
    if files == [] then 0
    else (if Prompted(t, files[0]) then 1 else 0) + PromptCount(t, files[1..])
  }

  /** The content at the file's path afterwards: the template when the
      file was fresh or replaced, what was there before otherwise. */
  function Outcome(t: Tree, file: TemplateFile, d: FileDecision): Option<string>
  {
    if d == Fresh || d == Replaced then Some(file.content) else Content(t, file.path)
  }

  /** Distinct paths, no path the parent of another, none a directory and
      no parent a file: every write that is attempted succeeds. */
  predicate Writable(t: Tree, files: seq<TemplateFile>)
  {
    && Placeable(files)
    && (forall i, j :: 0 <= i < j < |files| ==> files[i].path != files[j].path)
    && (forall i, j :: 0 <= i < |files| && 0 <= j < |files| ==> files[i].path != Parent(files[j].path))
    && (forall i :: 0 <= i < |files| ==> files[i].path !in t.dirs && Parent(files[i].path) !in t.files)
  }

  /** A step changes nothing but its own file. */
  lemma StepElsewhere(t: Tree, file: TemplateFile, answers: seq<FileAction>, prompts: nat, p: Path)
    requires file.path != [] && p != file.path
    ensures SameAt(t, FileStep(t, file, answers, prompts).tree, p)
  {
  }

  /** The loop changes no path outside the template list, and never a
      directory. */
  lemma {:induction false} LoopElsewhere(t: Tree, files: seq<TemplateFile>, answers: seq<FileAction>, prompts: nat, p: Path)
    requires Placeable(files) && forall j :: 0 <= j < |files| ==> files[j].path != p
    ensures SameAt(t, FileLoop(t, files, answers, prompts).tree, p)
    ensures FileLoop(t, files, answers, prompts).tree.dirs == t.dirs
    decreases |files|
  {
    if files != [] {
      var r := FileStep(t, files[0], answers, prompts);
      StepElsewhere(t, files[0], answers, prompts, p);
      if r.failed.None? {
        assert forall j :: 0 <= j < |files[1..]| ==> files[1..][j] == files[j + 1];
        LoopElsewhere(r.tree, files[1..], answers, r.prompts, p);
      }
    }
  }

  /** Decisions depend only on which paths exist. */
  lemma {:induction false} FileDecisionsAgree(t: Tree, u: Tree, files: seq<TemplateFile>, answers: seq<FileAction>, prompts: nat)
    requires Placeable(files)
    requires forall j :: 0 <= j < |files| ==>
      (Exists(t, files[j].path) <==> Exists(u, files[j].path)) &&
      (Exists(t, Parent(files[j].path)) <==> Exists(u, Parent(files[j].path)))
    ensures FileDecisions(t, files, answers, prompts) == FileDecisions(u, files, answers, prompts)
    ensures PromptCount(t, files) == PromptCount(u, files)
    decreases |files|
  {
    if files != [] {
      assert forall j :: 0 <= j < |files[1..]| ==> files[1..][j] == files[j + 1];
      FileDecisionsAgree(t, u, files[1..], answers, prompts + (if Prompted(t, files[0]) then 1 else 0));
    }
  }

  /** After the first step: its file holds what its decision says, and the
      rest of the list sees the same paths as before. */
  lemma FirstFile(t: Tree, files: seq<TemplateFile>, answers: seq<FileAction>, prompts: nat)
    requires Writable(t, files) && files != []
    ensures var r1 := FileStep(t, files[0], answers, prompts);
      var rest := files[1..];
      && r1.failed.None?
      && Writable(r1.tree, rest)
      && r1.prompts == prompts + (if Prompted(t, files[0]) then 1 else 0)
      && Content(r1.tree, files[0].path) == Outcome(t, files[0], FileDecide(t, files[0], answers, prompts))
      && (forall j :: 0 <= j < |rest| ==> SameAt(t, r1.tree, rest[j].path) && SameAt(t, r1.tree, Parent(rest[j].path)))
  {
    var rest := files[1..];
    assert forall j :: 0 <= j < |rest| ==> rest[j] == files[j + 1];
    var r1 := FileStep(t, files[0], answers, prompts);
    forall j | 0 <= j < |rest|
      ensures SameAt(t, r1.tree, rest[j].path) && SameAt(t, r1.tree, Parent(rest[j].path))
    {
      StepElsewhere(t, files[0], answers, prompts, rest[j].path);
      StepElsewhere(t, files[0], answers, prompts, Parent(rest[j].path));
    }
  }

  /** The file phase on a tree where every attempted write can succeed: it
      completes without touching a directory; it asks one prompt per file
      that is already there in an existing directory; a fresh or replaced
      file holds exactly its template, a kept file or one whose directory
      is missing holds what it held before. */
  lemma {:induction false} FileLoopOutcome(t: Tree, files: seq<TemplateFile>, answers: seq<FileAction>, prompts: nat)
    requires Writable(t, files)
    ensures var r := FileLoop(t, files, answers, prompts);
      var ds := FileDecisions(t, files, answers, prompts);
      && r.failed.None?
      && r.prompts == prompts + PromptCount(t, files)
      && forall k :: 0 <= k < |files| ==> Content(r.tree, files[k].path) == Outcome(t, files[k], ds[k])
    decreases |files|
  {
    if files != [] {
      var rest := files[1..];
      assert forall j :: 0 <= j < |rest| ==> rest[j] == files[j + 1];
      FirstFile(t, files, answers, prompts);
      var r1 := FileStep(t, files[0], answers, prompts);
      FileLoopOutcome(r1.tree, rest, answers, r1.prompts);
      FileDecisionsAgree(r1.tree, t, rest, answers, r1.prompts);
      LoopElsewhere(r1.tree, rest, answers, r1.prompts, files[0].path);
      var ds := FileDecisions(t, files, answers, prompts);
      assert ds[1..] == FileDecisions(t, rest, answers, r1.prompts);
      var r := FileLoop(r1.tree, rest, answers, r1.prompts);
      forall k | 1 <= k < |files|
        ensures Content(r.tree, files[k].path) == Outcome(t, files[k], ds[k])
      {
        assert Outcome(r1.tree, rest[k - 1], ds[k]) == Outcome(t, files[k], ds[k]);
      }
    }
  }
}
