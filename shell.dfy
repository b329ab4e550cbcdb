/**
 * The abstract environment the deployment pipeline runs against: the shell
 * commands it issues, the directories that exist, the trace of issued
 * commands, and an oracle that decides how each command ends.
 */
module Shell {
  import opened Wrappers

  type Path = string

  /** One command line as the pipeline builds it; arguments are kept apart, not quoted. */
  datatype Command =
    | GitClean(dir: Path)                          // `git clean -fd` inside dir
    | GitResetHard(dir: Path)                      // `git reset --hard HEAD` inside dir
    | GitCheckout(dir: Path, branch: string)       // `git checkout <branch>` inside dir
    | GitForceCheckout(dir: Path, branch: string)  // `git checkout -f <branch>` inside dir
    | GitPull(dir: Path, branch: string)           // `git pull origin <branch>` inside dir
    | GitClone(url: string, dest: Path)            // `git clone <url> <dest>` from the process directory
    | GitFetchAll(dir: Path)                       // `git fetch --all` inside dir
    | NpmInstall(dir: Path)                        // `npm install` inside dir
    | RunScript(dir: Path, script: string)         // the configured build command inside dir
    | CopyContents(src: Path, dest: Path)          // `cp -r <src>/* <dest>/` from the process directory
    | GitAddAll(dir: Path)                         // `git add .` inside dir
    | GitCommit(dir: Path, message: string)        // `git commit -m <message>` inside dir
    | GitPush(dir: Path, branch: string)           // `git push origin <branch>` inside dir
    | GitCurrentBranch(dir: Path)                  // `git rev-parse --abbrev-ref HEAD` inside dir
    | GitLastCommit(dir: Path)                     // `git log -1 --pretty=format:"%H|%s|%an|%ad"` inside dir

  /** The directory a command changes into before it runs; None for the two that run where the process started. */
  function WorkDir(c: Command): (wd: Option<Path>)
  {
    match c
    case GitClone(_, _) => None
    case CopyContents(_, _) => None
    case _ => Some(c.dir)
  }

  /** Every command of cs runs inside dir. */
  predicate InDir(cs: seq<Command>, dir: Path)
  {
    forall c :: c in cs ==> WorkDir(c) == Some(dir)
  }

  /** How a command ended: whether it exited successfully, and what it printed. */
  datatype Reply = Reply(ok: bool, stdout: string)

  /** The directories that exist and the commands issued so far, oldest first. */
  datatype World = World(dirs: set<Path>, trace: seq<Command>)
  {
    /** The world after issuing c: the command is recorded, directories are untouched. */
    function Issue(c: Command): (next: World)
    {
      World(dirs, trace + [c])
    }

    /** The world after creating directory p (`mkdirSync`). */
    function MakeDir(p: Path): (next: World)
    {
      World(dirs + {p}, trace)
    }
  }

  /** Decides how a command issued in a given world ends. */
  type Oracle = (World, Command) -> Reply

  /** later is reachable from earlier: no directory removed, no recorded command changed. */
  predicate Extends(later: World, earlier: World)
  {
    earlier.dirs <= later.dirs && earlier.trace <= later.trace
  }

  /** `path.join(base, sub)`, without normalisation of `.`, `..` or repeated separators. */
  function Join(base: Path, sub: string): (p: Path)
    ensures base <= p
    ensures sub != "" ==> |p| > |base|
  {
    if sub == "" then base else base + "/" + sub
  }

  /** The commands issued after `before`, given a world reached from it. */
  function Issued(after: World, before: World): (cs: seq<Command>)
    requires before.trace <= after.trace
  {
    after.trace[|before.trace|..]
  }
}
