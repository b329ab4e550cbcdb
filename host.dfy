/**
 * The command-line deployment as it runs: an object holding the directories
 * that exist and the commands issued so far, whose methods follow
 * `safeGitOperation`, `safeGitCheckout`, `getLastCommitInfo` and
 * `startBuildProcess` statement by statement. Each method is proved to leave
 * the state its pure counterpart computes.
 */
module Host {
  import opened Wrappers
  import opened Shell
  import opened Text
  import opened Config
  import opened CommitInspector
  import opened Synchronizer
  import opened Pipeline

  class Host {
    /** The directories that exist. */
    var dirs: set<Path>
    /** The commands issued so far, oldest first. */
    var trace: seq<Command>
    /** What each command does when it is run in a given state. */
    const oracle: Oracle

    constructor(existing: set<Path>, o: Oracle)
      ensures dirs == existing && trace == [] && oracle == o
    {
      dirs := existing;
      trace := [];
      oracle := o;
    }

    /** The current state as a value. */
    function Now(): (state: World)
      reads this
    {
      World(dirs, trace)
    }

    /** `fs.mkdirSync` guarded by `fs.existsSync`. */
    method MakeDirIfMissing(dir: Path)
      modifies this
      ensures Now() == EnsureDir(old(Now()), dir)
    {
      if dir !in dirs {
        dirs := dirs + {dir};
      }
    }

    /** `execAsync`: runs the command; its reply is the oracle's in the state before. */
    method Exec(c: Command) returns (reply: Reply)
      modifies this
      ensures reply == oracle(old(Now()), c)
      ensures Now() == old(Now()).Issue(c)
    {
      reply := oracle(Now(), c);
      trace := trace + [c];
    }

    /** `safeGitOperation`: runs the command and reports whether it succeeded; a failure is swallowed. */
    method SafeGitOperation(c: Command) returns (ok: bool)
      modifies this
      ensures ok == oracle(old(Now()), c).ok
      ensures Now() == old(Now()).Issue(c)
    {
      var reply := Exec(c);
      ok := reply.ok;
    }

    /** `safeGitCheckout`: clean, reset, checkout, a forced checkout when that failed, pull. */
    method SafeGitCheckout(dir: Path, branch: string)
      modifies this
      ensures Now() == Sync(oracle, old(Now()), dir, branch)
    {
      var _ := SafeGitOperation(GitClean(dir));
      var _ := SafeGitOperation(GitResetHard(dir));
      var checkoutSuccess := SafeGitOperation(GitCheckout(dir, branch));
      if !checkoutSuccess {
        var _ := SafeGitOperation(GitForceCheckout(dir, branch));
      }
      var _ := SafeGitOperation(GitPull(dir, branch));
    }

    /**
     * `getLastCommitInfo`: the branch query, then the log query, parsed; a
     * failure of either query yields the fallback record.
     */
    method GetLastCommitInfo(dir: Path) returns (info: CommitInfo)
      modifies this
      ensures (Now(), info) == Inspect(oracle, old(Now()), dir)
    {
      var currentBranch := Exec(GitCurrentBranch(dir));
      if !currentBranch.ok {
        return Fallback;
      }
      var commitInfo := Exec(GitLastCommit(dir));
      if !commitInfo.ok {
        return Fallback;
      }
      info := ParseCommit(currentBranch.stdout, commitInfo.stdout);
    }

    /**
     * Steps 1 to 5 of `startBuildProcess`, on the source checkout. None when
     * they went on; otherwise the outcome of the exception that ends the run.
     */
    method BuildSource(project: ProjectRecord, tc: TargetConfig) returns (halt: Option<Outcome>)
      modifies this
      ensures var s := PrepareSource(oracle, old(Now()), project, tc);
        && Now() == s.Final()
        && (halt.None? <==> s.Next?)
        && (halt.Some? ==> halt.value == s.report.outcome)
    {
      ghost var w0 := Now();
      var projectDir := project.gitDir;
      // 1. the source checkout directory
      MakeDirIfMissing(projectDir);
      ghost var w1 := Now();
      // 2. clone when absent, which cannot happen just after step 1; otherwise fetch
      if projectDir !in dirs {
        assert false;
      }
      var fetched := Exec(GitFetchAll(projectDir));
      assert CloneOrFetch(oracle, w1, project) == Strict(oracle, w1, GitFetchAll(projectDir));
      if !fetched.ok {
        return Some(Aborted(CommandFailed(GitFetchAll(projectDir))));
      }
      // 3. the source branch
      SafeGitCheckout(projectDir, tc.branch);
      ghost var w3 := Now();
      // 4. dependencies, only without node_modules
      if NodeModules(projectDir) !in dirs {
        var installed := Exec(NpmInstall(projectDir));
        if !installed.ok {
          return Some(Aborted(CommandFailed(NpmInstall(projectDir))));
        }
      }
      assert InstallIfMissing(oracle, w3, projectDir) == Next(Now());
      // 5. the build
      var built := Exec(RunScript(projectDir, tc.buildCommand));
      if !built.ok {
        return Some(Aborted(CommandFailed(RunScript(projectDir, tc.buildCommand))));
      }
      return None;
    }

    /**
     * Steps 6 to 10 of `startBuildProcess`, on the publish checkout. None
     * when they went on; otherwise the outcome of the exception that ends the run.
     */
    method Publish(project: ProjectRecord, target: TargetRecord, tc: TargetConfig) returns (halt: Option<Outcome>)
      modifies this
      ensures var s := PublishTarget(oracle, old(Now()), project, target, tc);
        && Now() == s.Final()
        && (halt.None? <==> s.Next?)
        && (halt.Some? ==> halt.value == s.report.outcome)
    {
      // 6. the publish checkout must exist
      if target.path !in dirs {
        return Some(Aborted(TargetDirMissing));
      }
      // 7. the publish branch
      SafeGitCheckout(target.path, tc.targetBranch);
      ghost var w7 := Now();
      // 8. copy the build output
      var targetBuildDir := Destination(project, target, tc);
      MakeDirIfMissing(targetBuildDir);
      var copy := CopyContents(Join(project.gitDir, project.buildDir), targetBuildDir);
      var copied := Exec(copy);
      assert CopyArtifacts(oracle, w7, project, target, tc) == Strict(oracle, EnsureDir(w7, targetBuildDir), copy);
      if !copied.ok {
        return Some(Aborted(CommandFailed(copy)));
      }
      ghost var w8 := Now();
      // 9. the commit the build came from
      var lastCommitInfo := GetLastCommitInfo(project.gitDir);
      var commitMessage := CommitMessage(lastCommitInfo);
      ghost var w9 := Now();
      assert Inspect(oracle, w8, project.gitDir) == (w9, lastCommitInfo);
      // 10. add, commit and push in the publish checkout
      var added := Exec(GitAddAll(target.path));
      if !added.ok {
        return Some(Aborted(CommandFailed(GitAddAll(target.path))));
      }
      var committed := Exec(GitCommit(target.path, commitMessage));
      if !committed.ok {
        return Some(Aborted(CommandFailed(GitCommit(target.path, commitMessage))));
      }
      var pushed := Exec(GitPush(target.path, tc.targetBranch));
      if !pushed.ok {
        return Some(Aborted(CommandFailed(GitPush(target.path, tc.targetBranch))));
      }
      return None;
    }

    /**
     * `startBuildProcess`: resolves the request, then runs the source steps
     * and the publish steps; the first exception ends the run and is caught
     * once, at the outermost level.
     */
    method StartBuildProcess(settings: Settings, req: BuildRequest) returns (outcome: Outcome)
      modifies this
      ensures Report(Now(), outcome) == Deploy(settings, req, oracle, old(Now()))
    {
      if req.projectKey !in settings.projects {
        // `project.targetConfigs` is read before the presence check and throws
        return Aborted(ProjectMissing);
      }
      var project := settings.projects[req.projectKey];
      var targetConfig := FindConfig(project.targetConfigs, req.deployEnv);
      if req.projectKey !in settings.targets || targetConfig.None? {
        return ConfigMissing;
      }
      var target := settings.targets[req.projectKey];
      var tc := targetConfig.value;
      var halt := BuildSource(project, tc);
      if halt.Some? {
        return halt.value;
      }
      halt := Publish(project, target, tc);
      if halt.Some? {
        return halt.value;
      }
      outcome := Completed;
    }
  }
}
