/** Choosing and spelling the dependency install (index.js:621-632 and
    646-655). `detectPackageManager` calls `existsSync` on the module bound
    to `fs` (index.js:5), which is `require('fs').promises`; that object has
    no `existsSync`, so the call throws a TypeError, the catch block answers
    `npm`, and the lock files are never looked at. `Detect` models the
    probe for either module; `DetectPackageManager` is the code as written
    and `DetectPackageManagerIntended` the evident intent. */
module PackageManagers {
  import opened Text

  datatype PackageManager = Yarn | Pnpm | Npm

  /** Which `fs` API the probe calls `existsSync` on. */
  datatype FsApi = PromisesApi | SyncApi

  /** The probe: `entries` are the names present in the working directory
      (`existsSync` is true for files and directories alike). */
  function Detect(api: FsApi, entries: set<string>): PackageManager
  {
    match api
    case PromisesApi => Npm
    case SyncApi =>
      if "yarn.lock" in entries then Yarn
      else if "pnpm-lock.yaml" in entries then Pnpm
      else Npm
  }

  /** detectPackageManager as written: the probe on `fs.promises`. */
  function DetectPackageManager(entries: set<string>): (pm: PackageManager)
    ensures pm == Npm
  {
    Detect(PromisesApi, entries)
  }

  /** The probe on the synchronous `fs` module: yarn.lock wins, then
      pnpm-lock.yaml, else npm. */
  function DetectPackageManagerIntended(entries: set<string>): (pm: PackageManager)
    ensures pm == Yarn <==> "yarn.lock" in entries
    ensures pm == Pnpm <==> "yarn.lock" !in entries && "pnpm-lock.yaml" in entries
    ensures pm == Npm <==> "yarn.lock" !in entries && "pnpm-lock.yaml" !in entries
  {
    Detect(SyncApi, entries)
  }

  /** A project that holds a yarn.lock is still installed with npm. */
  lemma YarnLockIgnored()
    ensures DetectPackageManager({"yarn.lock"}) == Npm
    ensures DetectPackageManagerIntended({"yarn.lock"}) == Yarn
  {
  }

  /** The dependency list of index.js:623, in order. */
  const Dependencies: seq<string> := ["axios", "@tanstack/react-query", "sonner", "js-cookie"]

  /** The words of the install verb: `yarn add`, `pnpm add`, `npm install`. */
  function InstallVerb(pm: PackageManager): (words: seq<string>)
    ensures |words| == 2 && FreeOf(words, ' ')
    ensures words[0] == match pm case Yarn => "yarn" case Pnpm => "pnpm" case Npm => "npm"
    ensures words[1] == if pm == Npm then "install" else "add"
  {
    match pm
    case Yarn => ["yarn", "add"]
    case Pnpm => ["pnpm", "add"]
    case Npm => ["npm", "install"]
  }

  /** `${installCommand} ${dependencies.join(' ')}`. */
  function InstallCommand(pm: PackageManager): string
  {
    Join(InstallVerb(pm), ' ') + " " + Join(Dependencies, ' ')
  }

  /** The command line splits into the package manager's two-word verb
      followed by exactly the four dependencies, in order. */
  lemma InstallCommandWords(pm: PackageManager)
    ensures Split(InstallCommand(pm), ' ') == InstallVerb(pm) + Dependencies
  {
    var verb := InstallVerb(pm);
    assert InstallCommand(pm) == Join(verb + Dependencies, ' ') by {
      JoinAppend(verb, Dependencies, ' ');
    }
    assert FreeOf(verb + Dependencies, ' ') by {
      DependenciesHaveNoSpace();
    }
    SplitJoin(verb + Dependencies, ' ');
  }

  /** No dependency name contains a space. */
  lemma DependenciesHaveNoSpace()
    ensures FreeOf(Dependencies, ' ')
  {
    assert ' ' !in Dependencies[0];
    assert ' ' !in Dependencies[1];
    assert ' ' !in Dependencies[2];
    assert ' ' !in Dependencies[3];
  }

  /** What the install step reports: nothing more on success, the command
      to run by hand when execSync throws. The setup continues either
      way. */
  function InstallHint(pm: PackageManager, succeeded: bool): (hint: Option<string>)
    ensures succeeded <==> hint.None?
    ensures !succeeded ==> hint.value == "Run: " + InstallCommand(pm)
  {
    if succeeded then None else Some("Run: " + InstallCommand(pm))
  }
}
