/** `setupApiStructure` and the `init` command of index.js: the folder
    phase, the file phase and the dependency install, run on one disk. The
    eight template texts are parameters; only instance.ts has a slot, for
    the base URL (index.js:110). */
module Setup {
  import opened Text
  import opened ScaffoldFs
  import opened Disks
  import opened FolderPhase
  import opened FilePhase
  import opened PackageManagers
  import opened BaseUrlPrompt

  /** The folders of index.js:40-45, in order. */
  const Folders: seq<Path> := [["src", "config", "api"], ["src", "config", "instance"], ["src", "hooks"], ["src", "utils"]]

  /** The paths of the eight templates of index.js:87-577, in order. */
  const TemplatePaths: seq<Path> := [
    ["src", "config", "api", "api.ts"],
    ["src", "config", "instance", "instance.ts"],
    ["src", "hooks", "useFetchData.ts"],
    ["src", "hooks", "usePostData.ts"],
    ["src", "hooks", "usePutData.ts"],
    ["src", "hooks", "usePatchData.ts"],
    ["src", "hooks", "useDeleteData.ts"],
    ["src", "utils", "storage.ts"]
  ]

  /** Which folder each template lives in. */
  const FolderOf: seq<nat> := [0, 1, 2, 2, 2, 2, 2, 3]

  /** The template texts; instance.ts is its text before and after the
      base-URL slot. */
  datatype TemplateTexts = TemplateTexts(
    api: string, instanceBefore: string, instanceAfter: string, fetchData: string,
    postData: string, putData: string, patchData: string, deleteData: string, storage: string)

  /** The `files` list of index.js:87-577 for a given base URL. */
  function Registry(texts: TemplateTexts, baseUrl: string): (files: seq<TemplateFile>)
    ensures |files| == 8 && Placeable(files)
    ensures forall i :: 0 <= i < 8 ==> files[i].path == TemplatePaths[i]
    ensures files[1].content == texts.instanceBefore + baseUrl + texts.instanceAfter
  {
    [
      TemplateFile(TemplatePaths[0], texts.api),
      TemplateFile(TemplatePaths[1], texts.instanceBefore + baseUrl + texts.instanceAfter),
      TemplateFile(TemplatePaths[2], texts.fetchData),
      TemplateFile(TemplatePaths[3], texts.postData),
      TemplateFile(TemplatePaths[4], texts.putData),
      TemplateFile(TemplatePaths[5], texts.patchData),
      TemplateFile(TemplatePaths[6], texts.deleteData),
      TemplateFile(TemplatePaths[7], texts.storage)
    ]
  }

  /** The base URL reaches instance.ts and no other file. */
  lemma BaseUrlOnlyInInstance(texts: TemplateTexts, a: string, b: string)
    ensures forall i :: 0 <= i < 8 && i != 1 ==> Registry(texts, a)[i] == Registry(texts, b)[i]
    ensures Registry(texts, a)[1] == Registry(texts, b)[1] <==> a == b
  {
    var x, y := texts.instanceBefore + a + texts.instanceAfter, texts.instanceBefore + b + texts.instanceAfter;
    if x == y {
      assert a == x[|texts.instanceBefore|..|texts.instanceBefore| + |a|];
    }
  }

  lemma DifferAt(a: Path, b: Path, k: nat)
    requires k < |a| && k < |b| && a[k] != b[k]
    ensures !Under(a, b) && !Under(b, a)
  {
  }

  /** The layout facts the phases rely on. */
  lemma Layout()
    ensures Independent(Folders)
    ensures forall i :: 0 <= i < 4 ==> |Folders[i]| >= 2 && Folders[i][0] == "src"
    ensures forall i :: 0 <= i < 8 ==> TemplatePaths[i] != [] && FolderOf[i] < 4 && Parent(TemplatePaths[i]) == Folders[FolderOf[i]]
    ensures forall i, j :: 0 <= i < j < 8 ==> TemplatePaths[i] != TemplatePaths[j]
    ensures forall i, j :: 0 <= i < 8 && 0 <= j < 8 ==> TemplatePaths[i] != Parent(TemplatePaths[j])
  {
    forall i, j | 0 <= i < 4 && 0 <= j < 4 && i != j
      ensures !Under(Folders[i], Folders[j])
    {
      if i < 2 && j < 2 {
        DifferAt(Folders[i], Folders[j], 2);
      } else {
        DifferAt(Folders[i], Folders[j], 1);
      }
    }
  }

  /** Each template lies strictly below its folder. */
  lemma TemplateInFolder(i: nat)
    requires i < 8
    ensures FolderOf[i] < 4 && TemplatePaths[i] != []
    ensures Parent(TemplatePaths[i]) == Folders[FolderOf[i]]
    ensures Under(Folders[FolderOf[i]], TemplatePaths[i]) && TemplatePaths[i] != Folders[FolderOf[i]]
  {
    Layout();
  }

  /** Below a folder whose subtree is a lone empty directory there is that
      directory and nothing else. */
  lemma EmptyDirAt(t: Tree, f: Path, p: Path)
    requires Subtree(t, f) == Tree({f}, map[]) && Under(f, p)
    ensures (p in t.dirs <==> p == f) && p !in t.files
  {
    if p in t.dirs {
      assert p in Subtree(t, f).dirs;
    }
    if p == f {
      assert f in Subtree(t, f).dirs;
    }
    assert p !in Subtree(t, f).files;
  }

  /** Every folder is there as a directory. */
  lemma FoldersPresent(t: Tree)
    requires forall k :: 0 <= k < 4 ==> Subtree(t, Folders[k]) == Tree({Folders[k]}, map[])
    ensures forall k :: 0 <= k < 4 ==> Folders[k] in t.dirs
  {
    forall k | 0 <= k < 4
      ensures Folders[k] in t.dirs
    {
      var f := Folders[k];
      assert Under(f, f) by { assert f[..|f|] == f; }
      EmptyDirAt(t, f, f);
    }
  }

  /** No template path is taken, and each template's folder is a
      directory. */
  lemma TemplatesAbsent(t: Tree)
    requires forall k :: 0 <= k < 4 ==> Subtree(t, Folders[k]) == Tree({Folders[k]}, map[])
    ensures forall i :: 0 <= i < 8 ==>
      && TemplatePaths[i] != []
      && TemplatePaths[i] !in t.dirs && TemplatePaths[i] !in t.files
      && Parent(TemplatePaths[i]) in t.dirs && Parent(TemplatePaths[i]) !in t.files
  {
    forall i | 0 <= i < 8
      ensures TemplatePaths[i] != [] && TemplatePaths[i] !in t.dirs && TemplatePaths[i] !in t.files
      ensures Parent(TemplatePaths[i]) in t.dirs && Parent(TemplatePaths[i]) !in t.files
    {
      TemplateInFolder(i);
      var f := Folders[FolderOf[i]];
      EmptyDirAt(t, f, TemplatePaths[i]);
      assert Under(f, f) by { assert f[..|f|] == f; }
      EmptyDirAt(t, f, f);
    }
  }

  /** Once every folder is a new empty directory, every template can be
      written and none is there yet. */
  lemma ReadyForTemplates(t: Tree, texts: TemplateTexts, baseUrl: string)
    requires forall k :: 0 <= k < 4 ==> Subtree(t, Folders[k]) == Tree({Folders[k]}, map[])
    ensures Writable(t, Registry(texts, baseUrl))
    ensures forall i :: 0 <= i < 8 ==>
      Exists(t, Parent(Registry(texts, baseUrl)[i].path)) && !Exists(t, Registry(texts, baseUrl)[i].path)
    ensures forall k :: 0 <= k < 4 ==> Folders[k] in t.dirs
  {
    FoldersPresent(t);
    TemplatesAbsent(t);
    var files := Registry(texts, baseUrl);
    assert forall i :: 0 <= i < 8 ==> files[i].path == TemplatePaths[i];
    forall i | 0 <= i < 8
      ensures Exists(t, Parent(files[i].path)) && !Exists(t, files[i].path)
    {
    }
    RegistryShape(texts, baseUrl);
  }

  /** The template paths are distinct, and none is another's folder. */
  lemma RegistryShape(texts: TemplateTexts, baseUrl: string)
    ensures var files := Registry(texts, baseUrl);
      && (forall i, j :: 0 <= i < j < |files| ==> files[i].path != files[j].path)
      && (forall i, j :: 0 <= i < |files| && 0 <= j < |files| ==> files[i].path != Parent(files[j].path))
  {
    Layout();
    var files := Registry(texts, baseUrl);
    forall i, j | 0 <= i < 8 && 0 <= j < 8
      ensures i < j ==> files[i].path != files[j].path
      ensures files[i].path != Parent(files[j].path)
    {
      assert files[i].path == TemplatePaths[i] && files[j].path == TemplatePaths[j];
    }
  }

  datatype Answers = Answers(folders: seq<FolderAction>, files: seq<FileAction>)

  datatype SetupRun = SetupRun(tree: Tree, folderPrompts: nat, filePrompts: nat, failed: Option<Path>)

  /** The two phases: the file phase runs only when the folder phase
      completed. */
  function SetupSpec(t: Tree, files: seq<TemplateFile>, answers: Answers): SetupRun
    requires Placeable(files)
  {
    var a := FolderLoop(t, Folders, answers.folders, 0);
    if a.failed.Some? then SetupRun(a.tree, a.prompts, 0, a.failed)
    else
      var b := FileLoop(a.tree, files, answers.files, 0);
      SetupRun(b.tree, a.prompts, b.prompts, b.failed)
  }

  /** The names present in the working directory. */
  function TopLevel(t: Tree): set<string>
  {
    set p | p in t.dirs + t.files.Keys && |p| == 1 :: p[0]
  }

  /** setupApiStructure (index.js:34-644). A failed mkdir or write ends it
      with that path; otherwise it runs the install command of the detected
      package manager and, when `installSucceeds` is false, hints the
      command to run by hand, without failing. */
  method SetupApiStructure(disk: Disk, baseUrl: string, texts: TemplateTexts, answers: Answers, installSucceeds: bool)
    returns (failed: Option<Path>, command: Option<string>, hint: Option<string>)
    modifies disk
    ensures var s := SetupSpec(old(disk.State()), Registry(texts, baseUrl), answers);
      disk.State() == s.tree && failed == s.failed
    ensures failed.Some? ==> command.None? && hint.None?
    ensures failed.None? ==>
      var pm := DetectPackageManager(TopLevel(disk.State()));
      command == Some(InstallCommand(pm)) && hint == InstallHint(pm, installSucceeds)
  {
    command, hint := None, None;
    var folderPrompts;
    folderPrompts, failed := PrepareFolders(disk, Folders, answers.folders);
    if failed.Some? {
      return;
    }
    var filePrompts;
    filePrompts, failed := WriteTemplates(disk, Registry(texts, baseUrl), answers.files);
    if failed.Some? {
      return;
    }
    var pm := DetectPackageManager(TopLevel(disk.State()));
    command := Some(InstallCommand(pm));
    hint := InstallHint(pm, installSucceeds);
  }

  /** The command's end: still waiting at the URL prompt, or the exit code
      (`process.exit(1)` when the setup threw, 0 after it finished). */
  datatype InitResult = StillAsking | ExitCode(code: nat)

  /** What `init` does to the tree and how it ends. */
  function InitSpec(t: Tree, lines: seq<string>, parsesAsUrl: string -> bool, texts: TemplateTexts, answers: Answers): (Tree, InitResult)
  {
    match Answer(lines, parsesAsUrl)
    case None => (t, StillAsking)
    case Some(url) =>
      var s := SetupSpec(t, Registry(texts, url), answers);
      (s.tree, ExitCode(if s.failed.Some? then 1 else 0))
  }

  /** The `init` action of index.js:657-684: ask for the base URL until a
      line validates, then set up. */
  method Init(disk: Disk, lines: seq<string>, parsesAsUrl: string -> bool, texts: TemplateTexts, answers: Answers, installSucceeds: bool)
    returns (result: InitResult)
    modifies disk
    ensures (disk.State(), result) == InitSpec(old(disk.State()), lines, parsesAsUrl, texts, answers)
  {
    var url := Answer(lines, parsesAsUrl);
    if url.None? {
      return StillAsking;
    }
    var failed, _, _ := SetupApiStructure(disk, url.value, texts, answers, installSucceeds);
    result := ExitCode(if failed.Some? then 1 else 0);
  }

  // ---------------------------------------------------------------------
  // A project without src/.

  lemma {:induction false} NoneExist(t: Tree, folders: seq<Path>, answers: seq<FolderAction>, prompts: nat)
    requires forall i :: 0 <= i < |folders| ==> !Exists(t, folders[i])
    ensures Decisions(t, folders, answers, prompts) == seq(|folders|, _ => Created)
    ensures PreExisting(t, folders) == 0
    decreases |folders|
  {
    if folders != [] {
      assert forall j :: 0 <= j < |folders[1..]| ==> folders[1..][j] == folders[j + 1];
      NoneExist(t, folders[1..], answers, prompts);
    }
  }

  lemma {:induction false} AllFresh(t: Tree, files: seq<TemplateFile>, answers: seq<FileAction>, prompts: nat)
    requires Placeable(files)
    requires forall i :: 0 <= i < |files| ==> Exists(t, Parent(files[i].path)) && !Exists(t, files[i].path)
    ensures FileDecisions(t, files, answers, prompts) == seq(|files|, _ => Fresh)
    ensures PromptCount(t, files) == 0
    decreases |files|
  {
    if files != [] {
      assert forall j :: 0 <= j < |files[1..]| ==> files[1..][j] == files[j + 1];
      AllFresh(t, files[1..], answers, prompts);
    }
  }

  /** The folder phase on a project without src/: no prompt, every folder
      a new empty directory. */
  lemma FreshFolders(t: Tree, answers: seq<FolderAction>)
    requires WellFormed(t) && !Exists(t, ["src"])
    ensures var r := FolderLoop(t, Folders, answers, 0);
      && r.failed.None? && r.prompts == 0 && WellFormed(r.tree)
      && forall k :: 0 <= k < 4 ==> Exists(r.tree, Folders[k]) && Subtree(r.tree, Folders[k]) == Tree({Folders[k]}, map[])
  {
    Layout();
    NothingBelowAbsent(t, ["src"]);
    forall i, k | 0 <= i < 4 && 1 <= k <= |Folders[i]|
      ensures Folders[i][..k] !in t.files && Folders[i][..k] !in t.dirs
    {
      assert Under(["src"], Folders[i][..k]);
    }
    NoneExist(t, Folders, answers, 0);
    FolderLoopOutcome(t, Folders, answers, 0);
  }

  /** The file phase with no answers, once every folder is a new empty
      directory: no prompt, no failure, every template written with its
      text, and no directory added or removed. */
  lemma FreshFiles(t1: Tree, texts: TemplateTexts, baseUrl: string)
    requires forall k :: 0 <= k < 4 ==> Subtree(t1, Folders[k]) == Tree({Folders[k]}, map[])
    ensures var files := Registry(texts, baseUrl);
      var b := FileLoop(t1, files, [], 0);
      && b.failed.None? && b.prompts == 0
      && (forall k :: 0 <= k < 4 ==> Folders[k] in b.tree.dirs)
      && (forall i :: 0 <= i < 8 ==> Content(b.tree, files[i].path) == Some(files[i].content))
  {
    var files := Registry(texts, baseUrl);
    ReadyForTemplates(t1, texts, baseUrl);
    AllWritten(t1, files);
  }

  /** The file phase with no answers, when every template is new and can
      be written: no prompt, no failure, each template written with its
      text, and the directories as they were. */
  lemma AllWritten(t: Tree, files: seq<TemplateFile>)
    requires Writable(t, files)
    requires forall i :: 0 <= i < |files| ==> Exists(t, Parent(files[i].path)) && !Exists(t, files[i].path)
    ensures var b := FileLoop(t, files, [], 0);
      && b.failed.None? && b.prompts == 0 && b.tree.dirs == t.dirs
      && (forall i :: 0 <= i < |files| ==> Content(b.tree, files[i].path) == Some(files[i].content))
  {
    AllFresh(t, files, [], 0);
    FileLoopOutcome(t, files, [], 0);
    LoopElsewhere(t, files, [], 0, []);
  }

  /** Run on a project without src/ and with no answers given, the setup
      asks nothing, completes, and leaves each of the eight templates at
      its path with exactly its text; instance.ts holds the base URL. */
  lemma FreshProject(t: Tree, texts: TemplateTexts, baseUrl: string)
    requires WellFormed(t) && !Exists(t, ["src"])
    ensures var s := SetupSpec(t, Registry(texts, baseUrl), Answers([], []));
      var files := Registry(texts, baseUrl);
      && s.failed.None? && s.folderPrompts == 0 && s.filePrompts == 0
      && (forall k :: 0 <= k < 4 ==> IsDir(s.tree, Folders[k]))
      && (forall i :: 0 <= i < 8 ==> Content(s.tree, files[i].path) == Some(files[i].content))
  {
    FreshFolders(t, []);
    FreshFiles(FolderLoop(t, Folders, [], 0).tree, texts, baseUrl);
  }

  // ---------------------------------------------------------------------
  // A skipped folder still receives its templates.

  /** A project with an empty src/hooks/ and nothing else. */
  const HooksOnly: Tree := Tree({["src"], ["src", "hooks"]}, map[])

  lemma HooksOnlyShape()
    ensures WellFormed(HooksOnly) && ClearPath(HooksOnly, Folders)
    ensures !Exists(HooksOnly, Folders[0]) && !Exists(HooksOnly, Folders[1])
    ensures Exists(HooksOnly, Folders[2]) && !Exists(HooksOnly, Folders[3])
    ensures Subtree(HooksOnly, Folders[2]) == Tree({Folders[2]}, map[])
  {
    var t := HooksOnly;
    assert Parent(["src", "hooks"]) == ["src"];
    var hooks := Folders[2];
    assert hooks[..|hooks|] == hooks;
    assert forall d :: d in t.dirs && Under(hooks, d) ==> d == hooks;
  }

  lemma HooksOnlyDecisions()
    ensures Decisions(HooksOnly, Folders, [Skip], 0) == [Created, Created, Skipped, Created]
  {
    HooksOnlyShape();
    var t, a := HooksOnly, [Skip];
    assert Folders[1..][1..] == Folders[2..];
    assert Folders[2..][1..] == Folders[3..];
    assert Folders[3..][1..] == [];
    assert Decisions(t, Folders[3..], a, 1) == [Created];
    assert Decisions(t, Folders[2..], a, 0) == [Skipped, Created];
    assert Decisions(t, Folders[1..], a, 0) == [Created, Skipped, Created];
  }

  /** The folder phase on that project with the answer skip: three
      folders are created and src/hooks/ is skipped, still empty. */
  lemma HooksOnlyFolders()
    ensures var r := FolderLoop(HooksOnly, Folders, [Skip], 0);
      && r.failed.None?
      && Decisions(HooksOnly, Folders, [Skip], 0) == [Created, Created, Skipped, Created]
      && forall k :: 0 <= k < 4 ==> Subtree(r.tree, Folders[k]) == Tree({Folders[k]}, map[])
  {
    Layout();
    HooksOnlyShape();
    HooksOnlyDecisions();
    FolderLoopOutcome(HooksOnly, Folders, [Skip], 0);
  }

  /** Answering skip for src/hooks/ (the one folder that exists, so the
      only folder prompt) still writes useFetchData.ts into it: the file
      loop tests that the directory exists, and a skipped folder does. */
  lemma SkippedFolderStillFilled(texts: TemplateTexts, baseUrl: string)
    ensures Decisions(HooksOnly, Folders, [Skip], 0)[2] == Skipped
    ensures Content(SetupSpec(HooksOnly, Registry(texts, baseUrl), Answers([Skip], [])).tree, TemplatePaths[2])
      == Some(texts.fetchData)
  {
    HooksOnlyFolders();
    FreshFiles(FolderLoop(HooksOnly, Folders, [Skip], 0).tree, texts, baseUrl);
  }

  // ---------------------------------------------------------------------
  // The file phase as its message says it was meant: a file whose folder
  // the user skipped is left alone.

  /** The folders answered with skip. */
  function SkippedSet(t: Tree, folders: seq<Path>, answers: seq<FolderAction>): set<Path>
  {
    set k | 0 <= k < |folders| && Decisions(t, folders, answers, 0)[k] == Skipped :: folders[k]
  }

  function FileStepIntended(t: Tree, file: TemplateFile, answers: seq<FileAction>, prompts: nat, skipped: set<Path>): Run
    requires file.path != []
  {
    if Parent(file.path) in skipped then Run(t, prompts, None) else FileStep(t, file, answers, prompts)
  }

  function FileLoopIntended(t: Tree, files: seq<TemplateFile>, answers: seq<FileAction>, prompts: nat, skipped: set<Path>): Run
    requires Placeable(files)
    decreases |files|
  {
    if files == [] then Run(t, prompts, None)
    else
      var r := FileStepIntended(t, files[0], answers, prompts, skipped);
      if r.failed.Some? then r else FileLoopIntended(r.tree, files[1..], answers, r.prompts, skipped)
  }

  /** The setup with the file phase gated on the folder decisions. */
  function SetupSpecIntended(t: Tree, files: seq<TemplateFile>, answers: Answers): SetupRun
    requires Placeable(files)
  {
    var a := FolderLoop(t, Folders, answers.folders, 0);
    if a.failed.Some? then SetupRun(a.tree, a.prompts, 0, a.failed)
    else
      var b := FileLoopIntended(a.tree, files, answers.files, 0, SkippedSet(t, Folders, answers.folders));
      SetupRun(b.tree, a.prompts, b.prompts, b.failed)
  }

  /** The gated loop never touches a template path whose folder was
      skipped, nor any path that is not a template's. */
  lemma {:induction false} IntendedLoopUntouched(t: Tree, files: seq<TemplateFile>, answers: seq<FileAction>, prompts: nat, skipped: set<Path>, p: Path)
    requires Placeable(files)
    requires forall j :: 0 <= j < |files| && files[j].path == p ==> Parent(p) in skipped
    ensures SameAt(t, FileLoopIntended(t, files, answers, prompts, skipped).tree, p)
    decreases |files|
  {
    if files != [] {
      var r := FileStepIntended(t, files[0], answers, prompts, skipped);
      if files[0].path != p {
        StepElsewhere(t, files[0], answers, prompts, p);
      }
      if r.failed.None? {
        assert forall j :: 0 <= j < |files[1..]| ==> files[1..][j] == files[j + 1];
        IntendedLoopUntouched(r.tree, files[1..], answers, r.prompts, skipped, p);
      }
    }
  }

  /** A template path lying below a folder has that folder as its
      parent. */
  lemma TemplateBelowFolder(k: nat, j: nat)
    requires k < 4 && j < 8 && Under(Folders[k], TemplatePaths[j])
    ensures Parent(TemplatePaths[j]) == Folders[k]
  {
    Layout();
    var f, p := Folders[k], TemplatePaths[j];
    var home := if k == 3 then 7 else k;
    assert f == Parent(TemplatePaths[home]);
    assert |f| < |p|;
    assert Under(f, Parent(p)) by {
      assert Parent(p)[..|f|] == p[..|f|];
    }
  }

  /** The gated file loop leaves a skipped folder's subtree alone. */
  lemma GatedSparesFolder(t1: Tree, texts: TemplateTexts, baseUrl: string, answers: seq<FileAction>, skipped: set<Path>, k: nat)
    requires k < 4 && Folders[k] in skipped
    ensures var u := FileLoopIntended(t1, Registry(texts, baseUrl), answers, 0, skipped).tree;
      Subtree(u, Folders[k]) == Subtree(t1, Folders[k])
  {
    var files := Registry(texts, baseUrl);
    var f := Folders[k];
    var u := FileLoopIntended(t1, files, answers, 0, skipped).tree;
    forall p | Under(f, p)
      ensures SameAt(t1, u, p)
    {
      forall j | 0 <= j < 8 && files[j].path == p
        ensures Parent(p) in skipped
      {
        TemplateBelowFolder(k, j);
      }
      IntendedLoopUntouched(t1, files, answers, 0, skipped, p);
    }
    SubtreeAgree(t1, u, f);
  }

  /** With the gate, a folder the user skipped keeps its whole subtree,
      through both phases. */
  lemma IntendedKeepsSkipped(t: Tree, texts: TemplateTexts, baseUrl: string, answers: Answers)
    requires WellFormed(t) && ClearPath(t, Folders)
    ensures var s := SetupSpecIntended(t, Registry(texts, baseUrl), answers);
      forall k :: 0 <= k < 4 && Decisions(t, Folders, answers.folders, 0)[k] == Skipped ==>
        Subtree(s.tree, Folders[k]) == Subtree(t, Folders[k])
  {
    assert Independent(Folders) by { Layout(); }
    FolderLoopOutcome(t, Folders, answers.folders, 0);
    var t1 := FolderLoop(t, Folders, answers.folders, 0).tree;
    var skipped := SkippedSet(t, Folders, answers.folders);
    forall k | 0 <= k < 4 && Decisions(t, Folders, answers.folders, 0)[k] == Skipped
      ensures Subtree(SetupSpecIntended(t, Registry(texts, baseUrl), answers).tree, Folders[k]) == Subtree(t, Folders[k])
    {
      assert Folders[k] in skipped;
      GatedSparesFolder(t1, texts, baseUrl, answers.files, skipped, k);
    }
  }
}
