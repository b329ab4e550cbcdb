/**
 * The build-and-publish orchestrator as a function from a world to a report:
 * resolve the configuration, prepare and build the source checkout,
 * synchronize the publish checkout, copy the build output, commit and push.
 * A strict command that fails ends the run; safe commands never do.
 */
module Pipeline {
  import opened Wrappers
  import opened Shell
  import opened Config
  import opened CommitInspector
  import opened Synchronizer

  /** Why a run was abandoned in the outer catch block. */
  datatype Failure =
    | ProjectMissing              // the project record is read before it is checked
    | CommandFailed(cmd: Command) // a strict command failed
    | TargetDirMissing            // the publish checkout does not exist

  datatype Outcome =
    | Completed                   // pushed
    | ConfigMissing               // target record or environment entry absent: an early return
    | Aborted(failure: Failure)   // an exception caught once at the outermost level

  datatype Report = Report(world: World, outcome: Outcome)

  /** Between two steps: still running in a world, or stopped with a report. */
  datatype Step = Next(world: World) | Stop(report: Report)
  {
    predicate IsFailure()
    {
      Stop?
    }

    function PropagateFailure(): (s: Step)
      requires Stop?
    {
      this
    }

    function Extract(): (v: World)
      requires Next?
    {
      world
    }

    /** The world the step leaves behind, whether running or stopped. */
    function Final(): (v: World)
    {
      if Next? then world else report.world
    }
  }

  /** When a strict command ended the run, it is the last command issued and the oracle failed it there. */
  predicate FailedLast(o: Oracle, r: Report)
  {
    r.outcome.Aborted? && r.outcome.failure.CommandFailed? ==>
      var t := r.world.trace;
      |t| > 0 && t[|t| - 1] == r.outcome.failure.cmd && !o(World(r.world.dirs, t[..|t| - 1]), t[|t| - 1]).ok
  }

  /** A command issued through execAsync directly: its failure is thrown. */
  function Strict(o: Oracle, w: World, c: Command): (s: Step)
  {
    var w' := w.Issue(c);
    if o(w, c).ok then Next(w') else Stop(Report(w', Aborted(CommandFailed(c))))
  }

  /** A strict command that fails is the last one issued, and ends the run with its own failure. */
  lemma StrictFailedLast(o: Oracle, w: World, c: Command)
    ensures var s := Strict(o, w, c);
      && (s.Next? <==> o(w, c).ok)
      && s.Final() == w.Issue(c)
      && (s.Stop? ==> s.report.outcome == Aborted(CommandFailed(c)) && FailedLast(o, s.report))
  {
    assert w.Issue(c).trace[..|w.trace|] == w.trace;
  }

  const CommitPrefix: string := "自动构建: "

  /** The message of the publish commit. */
  function CommitMessage(info: CommitInfo): (msg: string)
  {
    CommitPrefix + Render(info.message)
  }

  function NodeModules(dir: Path): (p: Path)
  {
    Join(dir, "node_modules")
  }

  /** `mkdirSync` guarded by `existsSync`. */
  function EnsureDir(w: World, dir: Path): (w': World)
    ensures w'.dirs == w.dirs + {dir} && w'.trace == w.trace
  {
    if dir in w.dirs then w else w.MakeDir(dir)
  }

  /** Step 2: clone and install when the checkout is absent, otherwise a strict fetch. */
  function CloneOrFetch(o: Oracle, w: World, project: ProjectRecord): (s: Step)
  {
    if project.gitDir !in w.dirs then
      var w1 :- Strict(o, w, GitClone(project.gitPath, project.gitDir));
      Strict(o, w1, NpmInstall(project.gitDir))
    else
      Strict(o, w, GitFetchAll(project.gitDir))
  }

  /** Step 4: a strict install exactly when there is no node_modules directory. */
  function InstallIfMissing(o: Oracle, w: World, dir: Path): (s: Step)
  {
    if NodeModules(dir) in w.dirs then Next(w) else Strict(o, w, NpmInstall(dir))
  }

  /** Steps 1 to 5, all on the source checkout: create it, refresh it, synchronize, install, build. */
  function PrepareSource(o: Oracle, w: World, project: ProjectRecord, tc: TargetConfig): (s: Step)
  {
    var dir := project.gitDir;
    var w1 := EnsureDir(w, dir);
    var w2 :- CloneOrFetch(o, w1, project);
    var w3 := Sync(o, w2, dir, tc.branch);
    var w4 :- InstallIfMissing(o, w3, dir);
    Strict(o, w4, RunScript(dir, tc.buildCommand))
  }

  /** Step 6: the publish checkout must already exist. */
  function CheckTarget(w: World, target: TargetRecord): (s: Step)
  {
    if target.path in w.dirs then Next(w) else Stop(Report(w, Aborted(TargetDirMissing)))
  }

  /** The directory the build output is copied into. */
  function Destination(project: ProjectRecord, target: TargetRecord, tc: TargetConfig): (dest: Path)
  {
    Join(target.path, PublishSubdir(tc, project))
  }

  /** Step 8: create the destination when absent, then a strict copy of the build output into it. */
  function CopyArtifacts(o: Oracle, w: World, project: ProjectRecord, target: TargetRecord, tc: TargetConfig): (s: Step)
  {
    var dest := Destination(project, target, tc);
    Strict(o, EnsureDir(w, dest), CopyContents(Join(project.gitDir, project.buildDir), dest))
  }

  /** Steps 9 and 10: inspect the source commit, then strict add, commit and push in the publish checkout. */
  function Release(o: Oracle, w: World, dir: Path, target: TargetRecord, tc: TargetConfig): (s: Step)
  {
    var (w1, info) := Inspect(o, w, dir);
    var w2 :- Strict(o, w1, GitAddAll(target.path));
    var w3 :- Strict(o, w2, GitCommit(target.path, CommitMessage(info)));
    Strict(o, w3, GitPush(target.path, tc.targetBranch))
  }

  /** Steps 6 to 10, on the publish checkout. */
  function PublishTarget(o: Oracle, w: World, project: ProjectRecord, target: TargetRecord, tc: TargetConfig): (s: Step)
  {
    var w6 :- CheckTarget(w, target);
    var w7 := Sync(o, w6, target.path, tc.targetBranch);
    var w8 :- CopyArtifacts(o, w7, project, target, tc);
    Release(o, w8, project.gitDir, target, tc)
  }

  /** A resolved run: the source side, then the publish side. */
  function Run(o: Oracle, w: World, project: ProjectRecord, target: TargetRecord, tc: TargetConfig): (s: Step)
  {
    var w5 :- PrepareSource(o, w, project, tc);
    PublishTarget(o, w5, project, target, tc)
  }

  /** The report of a resolved run: completed when every step went on, otherwise the report it stopped with. */
  function Finish(s: Step): (r: Report)
    ensures r.world == s.Final()
  {
    match s
    case Next(w) => Report(w, Completed)
    case Stop(stopped) => stopped
  }

  /** Whether a request finds its project, its target record and its environment entry. */
  predicate Resolves(settings: Settings, req: BuildRequest)
  {
    && req.projectKey in settings.projects
    && req.projectKey in settings.targets
    && FindConfig(settings.projects[req.projectKey].targetConfigs, req.deployEnv).Some?
  }

  /**
   * `startBuildProcess`: a missing project is an abort (its record is read
   * before the presence check), a missing target record or environment entry
   * an early return; otherwise the resolved run.
   */
  function Deploy(settings: Settings, req: BuildRequest, o: Oracle, w: World): (r: Report)
  {
    if req.projectKey !in settings.projects then Report(w, Aborted(ProjectMissing))
    else
      var project := settings.projects[req.projectKey];
      var tc := FindConfig(project.targetConfigs, req.deployEnv);
      if req.projectKey !in settings.targets || tc.None? then Report(w, ConfigMissing)
      else
        Finish(Run(o, w, project, settings.targets[req.projectKey], tc.value))
  }
}
