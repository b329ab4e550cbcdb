/**
 * What a deployment run promises, stated over the trace of issued commands:
 * configuration errors issue nothing, clone never runs, fetch is issued
 * first and is strict, install runs exactly when node_modules is missing,
 * source-side failures never reach the publish checkout, and a completed run
 * copies, adds, commits and pushes in that order.
 */
module DeployProperties {
  import opened Wrappers
  import opened Shell
  import opened Config
  import opened CommitInspector
  import opened Synchronizer
  import opened Pipeline
  import opened Text

  /**
   * The source steps (1 to 5) with every world written out: the checkout
   * directory is created, the fetch is issued and a failure of it stops the
   * run; then the synchronizer's commands, the install only when
   * node_modules is absent (its failure stops the run), and the build.
   */
  function PrepareCases(o: Oracle, w: World, project: ProjectRecord, tc: TargetConfig): (s: Step)
  {
    var d := project.gitDir;
    var ds := w.dirs + {d};
    var t1 := w.trace + [GitFetchAll(d)];
    var t3 := t1 + SyncCommands(CheckoutSucceeds(o, World(ds, t1), d, tc.branch), d, tc.branch);
    var install := NodeModules(d) !in w.dirs;
    var t4 := t3 + (if install then [NpmInstall(d)] else []);
    if !o(World(ds, w.trace), GitFetchAll(d)).ok then Stop(Report(World(ds, t1), Aborted(CommandFailed(GitFetchAll(d)))))
    else if install && !o(World(ds, t3), NpmInstall(d)).ok then Stop(Report(World(ds, t4), Aborted(CommandFailed(NpmInstall(d)))))
    else Strict(o, World(ds, t4), RunScript(d, tc.buildCommand))
  }

  lemma PrepareTable(o: Oracle, w: World, project: ProjectRecord, tc: TargetConfig)
    ensures PrepareSource(o, w, project, tc) == PrepareCases(o, w, project, tc)
  {
    var d := project.gitDir;
    var w1 := EnsureDir(w, d);
    assert w1 == World(w.dirs + {d}, w.trace);
    assert CloneOrFetch(o, w1, project) == Strict(o, w1, GitFetchAll(d));
    var w2 := w1.Issue(GitFetchAll(d));
    SyncTrace(o, w2, d, tc.branch);
    var w3 := Sync(o, w2, d, tc.branch);
    assert NodeModules(d) != d;
    assert NodeModules(d) in w3.dirs <==> NodeModules(d) in w.dirs;
    var ds, t1 := w.dirs + {d}, w.trace + [GitFetchAll(d)];
    var t3 := t1 + SyncCommands(CheckoutSucceeds(o, World(ds, t1), d, tc.branch), d, tc.branch);
    assert w2 == World(ds, t1);
    assert w3 == World(ds, t3);
    if o(w1, GitFetchAll(d)).ok {
      assert PrepareSource(o, w, project, tc) == (var w4 :- InstallIfMissing(o, w3, d); Strict(o, w4, RunScript(d, tc.buildCommand)));
      if NodeModules(d) !in w.dirs {
        assert InstallIfMissing(o, w3, d) == Strict(o, World(ds, t3), NpmInstall(d));
      } else {
        assert InstallIfMissing(o, w3, d) == Next(World(ds, t3));
        assert t3 + [] == t3;
      }
    }
  }

  /** Step 10 with every world written out: add, commit with msg, and push, each strict and issued only when the one before succeeded. */
  function PushCases(o: Oracle, v: World, msg: string, target: TargetRecord, tc: TargetConfig): (s: Step)
  {
    var add, commit := GitAddAll(target.path), GitCommit(target.path, msg);
    var w2 := v.Issue(add);
    if !o(v, add).ok then Stop(Report(w2, Aborted(CommandFailed(add))))
    else if !o(w2, commit).ok then Stop(Report(w2.Issue(commit), Aborted(CommandFailed(commit))))
    else Strict(o, w2.Issue(commit), GitPush(target.path, tc.targetBranch))
  }

  /** Steps 9 and 10: the inspector's queries, then step 10 with the message built from its record. */
  function ReleaseCases(o: Oracle, w: World, d: Path, target: TargetRecord, tc: TargetConfig): (s: Step)
  {
    var q := Inspect(o, w, d);
    PushCases(o, q.0, CommitMessage(q.1), target, tc)
  }

  lemma ReleaseTable(o: Oracle, w: World, d: Path, target: TargetRecord, tc: TargetConfig)
    ensures Release(o, w, d, target, tc) == ReleaseCases(o, w, d, target, tc)
  {
  }

  /**
   * Steps 6 to 10 with every world written out: a missing publish checkout
   * stops the run with nothing issued; otherwise the synchronizer's commands,
   * the copy into the destination (created when absent), whose failure stops
   * the run, and steps 9 and 10.
   */
  function PublishCases(o: Oracle, w: World, project: ProjectRecord, target: TargetRecord, tc: TargetConfig): (s: Step)
  {
    var t, dest := target.path, Destination(project, target, tc);
    var ts := w.trace + SyncCommands(CheckoutSucceeds(o, w, t, tc.targetBranch), t, tc.targetBranch);
    var ds := w.dirs + {dest};
    var copy := CopyContents(Join(project.gitDir, project.buildDir), dest);
    if t !in w.dirs then Stop(Report(w, Aborted(TargetDirMissing)))
    else if !o(World(ds, ts), copy).ok then Stop(Report(World(ds, ts + [copy]), Aborted(CommandFailed(copy))))
    else ReleaseCases(o, World(ds, ts + [copy]), project.gitDir, target, tc)
  }

  lemma PublishTable(o: Oracle, w: World, project: ProjectRecord, target: TargetRecord, tc: TargetConfig)
    ensures PublishTarget(o, w, project, target, tc) == PublishCases(o, w, project, target, tc)
  {
    var t, dest := target.path, Destination(project, target, tc);
    if t in w.dirs {
      SyncTrace(o, w, t, tc.targetBranch);
      var w7 := Sync(o, w, t, tc.targetBranch);
      var ts := w.trace + SyncCommands(CheckoutSucceeds(o, w, t, tc.targetBranch), t, tc.targetBranch);
      var copy := CopyContents(Join(project.gitDir, project.buildDir), dest);
      assert EnsureDir(w7, dest) == World(w.dirs + {dest}, ts);
      ReleaseTable(o, World(w.dirs + {dest}, ts + [copy]), project.gitDir, target, tc);
    }
  }

  /** A resolved run as its source steps and, when those went on, its publish steps. */
  function RunCases(o: Oracle, w: World, project: ProjectRecord, target: TargetRecord, tc: TargetConfig): (s: Step)
  {
    match PrepareCases(o, w, project, tc)
    case Stop(r) => Stop(r)
    case Next(w5) => PublishCases(o, w5, project, target, tc)
  }

  lemma RunTable(o: Oracle, w: World, project: ProjectRecord, target: TargetRecord, tc: TargetConfig)
    ensures Run(o, w, project, target, tc) == RunCases(o, w, project, target, tc)
  {
    PrepareTable(o, w, project, tc);
    var p := PrepareSource(o, w, project, tc);
    if p.Next? {
      PublishTable(o, p.world, project, target, tc);
    }
  }

  /** The commands the source steps issue, as one list. */
  function PrepareCommands(o: Oracle, w: World, project: ProjectRecord, tc: TargetConfig): (cs: seq<Command>)
  {
    var d := project.gitDir;
    var ds := w.dirs + {d};
    var fetch := GitFetchAll(d);
    if !o(World(ds, w.trace), fetch).ok then [fetch]
    else
      var sync := SyncCommands(CheckoutSucceeds(o, World(ds, w.trace + [fetch]), d, tc.branch), d, tc.branch);
      var install := NodeModules(d) !in w.dirs;
      if install && !o(World(ds, w.trace + [fetch] + sync), NpmInstall(d)).ok then [fetch] + sync + [NpmInstall(d)]
      else [fetch] + sync + (if install then [NpmInstall(d)] else []) + [RunScript(d, tc.buildCommand)]
  }

  /**
   * The source steps create the checkout directory and issue exactly
   * PrepareCommands; when they stop, it is for the last of those commands,
   * which the oracle failed there.
   */
  lemma PrepareFinal(o: Oracle, w: World, project: ProjectRecord, tc: TargetConfig)
    ensures var s := PrepareCases(o, w, project, tc);
      && s.Final() == World(w.dirs + {project.gitDir}, w.trace + PrepareCommands(o, w, project, tc))
      && (s.Stop? ==> s.report.outcome.Aborted? && s.report.outcome.failure.CommandFailed? && FailedLast(o, s.report))
  {
    var d := project.gitDir;
    var ds, fetch := w.dirs + {d}, GitFetchAll(d);
    StrictFailedLast(o, World(ds, w.trace), fetch);
    if o(World(ds, w.trace), fetch).ok {
      var sync := SyncCommands(CheckoutSucceeds(o, World(ds, w.trace + [fetch]), d, tc.branch), d, tc.branch);
      var t3 := w.trace + [fetch] + sync;
      var install := NodeModules(d) !in w.dirs;
      var t4 := t3 + (if install then [NpmInstall(d)] else []);
      if install && !o(World(ds, t3), NpmInstall(d)).ok {
        StrictFailedLast(o, World(ds, t3), NpmInstall(d));
        Regroup(w.trace, [fetch], sync, [NpmInstall(d)]);
      } else {
        StrictFailedLast(o, World(ds, t4), RunScript(d, tc.buildCommand));
        Regroup5(w.trace, [fetch], sync, if install then [NpmInstall(d)] else [], [RunScript(d, tc.buildCommand)]);
      }
    }
  }

  /** The commands step 10 issues, as one list. */
  function PushCommands(o: Oracle, v: World, msg: string, target: TargetRecord, tc: TargetConfig): (cs: seq<Command>)
  {
    var add, commit := GitAddAll(target.path), GitCommit(target.path, msg);
    [add] + if !o(v, add).ok then []
            else [commit] + if !o(v.Issue(add), commit).ok then [] else [GitPush(target.path, tc.targetBranch)]
  }

  /**
   * Step 10 creates no directory and issues exactly PushCommands; it goes on
   * exactly when add, commit and push all succeed, having issued all three,
   * and when it stops it is for the last command issued, which the oracle
   * failed there.
   */
  lemma PushFinal(o: Oracle, v: World, msg: string, target: TargetRecord, tc: TargetConfig)
    ensures var s, add, commit, push := PushCases(o, v, msg, target, tc),
                                        GitAddAll(target.path), GitCommit(target.path, msg), GitPush(target.path, tc.targetBranch);
      && s.Final() == World(v.dirs, v.trace + PushCommands(o, v, msg, target, tc))
      && (s.Next? <==> o(v, add).ok && o(v.Issue(add), commit).ok && o(v.Issue(add).Issue(commit), push).ok)
      && (s.Next? ==> PushCommands(o, v, msg, target, tc) == [add, commit, push])
      && (s.Stop? ==> s.report.outcome.Aborted? && s.report.outcome.failure.CommandFailed? && FailedLast(o, s.report))
  {
    var add, commit, push := GitAddAll(target.path), GitCommit(target.path, msg), GitPush(target.path, tc.targetBranch);
    var w2 := v.Issue(add);
    var w3 := w2.Issue(commit);
    if !o(v, add).ok {
      StrictFailedLast(o, v, add);
      assert PushCases(o, v, msg, target, tc) == Strict(o, v, add);
      assert PushCommands(o, v, msg, target, tc) == [add];
    } else if !o(w2, commit).ok {
      StrictFailedLast(o, w2, commit);
      assert PushCases(o, v, msg, target, tc) == Strict(o, w2, commit);
      assert PushCommands(o, v, msg, target, tc) == [add, commit];
      assert w3.trace == v.trace + [add, commit];
    } else {
      StrictFailedLast(o, w3, push);
      assert PushCases(o, v, msg, target, tc) == Strict(o, w3, push);
      assert PushCommands(o, v, msg, target, tc) == [add, commit, push];
      assert w3.Issue(push).trace == v.trace + [add, commit, push];
    }
  }

  /** The commands steps 9 and 10 issue, as one list. */
  function ReleaseCommands(o: Oracle, w: World, d: Path, target: TargetRecord, tc: TargetConfig): (cs: seq<Command>)
  {
    var q := Inspect(o, w, d);
    Queries(o(w, GitCurrentBranch(d)).ok, d) + PushCommands(o, q.0, CommitMessage(q.1), target, tc)
  }

  /**
   * Steps 9 and 10 create no directory and issue exactly ReleaseCommands;
   * they go on exactly when add, commit and push all succeed, ending with
   * those three, and when they stop it is for the last command issued, which
   * the oracle failed there.
   */
  lemma ReleaseFinal(o: Oracle, w: World, d: Path, target: TargetRecord, tc: TargetConfig)
    ensures var s, q := ReleaseCases(o, w, d, target, tc), Inspect(o, w, d);
      var add, commit, push := GitAddAll(target.path), GitCommit(target.path, CommitMessage(q.1)), GitPush(target.path, tc.targetBranch);
      && s.Final() == World(w.dirs, w.trace + ReleaseCommands(o, w, d, target, tc))
      && (s.Next? <==> o(q.0, add).ok && o(q.0.Issue(add), commit).ok && o(q.0.Issue(add).Issue(commit), push).ok)
      && (s.Next? ==> ReleaseCommands(o, w, d, target, tc) == Queries(o(w, GitCurrentBranch(d)).ok, d) + [add, commit, push])
      && (s.Stop? ==> s.report.outcome.Aborted? && s.report.outcome.failure.CommandFailed? && FailedLast(o, s.report))
  {
    InspectBehaviour(o, w, d);
    var q := Inspect(o, w, d);
    var msg := CommitMessage(q.1);
    PushFinal(o, q.0, msg, target, tc);
    var qs, pc := Queries(o(w, GitCurrentBranch(d)).ok, d), PushCommands(o, q.0, msg, target, tc);
    assert q.0.trace + pc == w.trace + (qs + pc);
  }

  /** The commands the publish steps issue, as one list. */
  function PublishCommands(o: Oracle, w: World, project: ProjectRecord, target: TargetRecord, tc: TargetConfig): (cs: seq<Command>)
  {
    var t, dest := target.path, Destination(project, target, tc);
    var sync := SyncCommands(CheckoutSucceeds(o, w, t, tc.targetBranch), t, tc.targetBranch);
    var ds := w.dirs + {dest};
    var copy := CopyContents(Join(project.gitDir, project.buildDir), dest);
    if t !in w.dirs then []
    else if !o(World(ds, w.trace + sync), copy).ok then sync + [copy]
    else sync + [copy] + ReleaseCommands(o, World(ds, w.trace + sync + [copy]), project.gitDir, target, tc)
  }

  /**
   * The publish steps issue exactly PublishCommands and create only the
   * destination, and nothing at all when the publish checkout is missing,
   * which is then the reason they stop; any other stop is for the last
   * command issued, which the oracle failed there.
   */
  lemma PublishFinal(o: Oracle, w: World, project: ProjectRecord, target: TargetRecord, tc: TargetConfig)
    ensures var s, t := PublishCases(o, w, project, target, tc), target.path;
      && s.Final() == World(if t in w.dirs then w.dirs + {Destination(project, target, tc)} else w.dirs,
                            w.trace + PublishCommands(o, w, project, target, tc))
      && (s.Stop? && s.report.outcome == Aborted(TargetDirMissing) <==> t !in w.dirs)
      && (s.Stop? ==>
            && s.report.outcome.Aborted?
            && (s.report.outcome.failure.CommandFailed? || s.report.outcome.failure.TargetDirMissing?)
            && FailedLast(o, s.report))
  {
    var t, dest := target.path, Destination(project, target, tc);
    if t in w.dirs {
      var sync := SyncCommands(CheckoutSucceeds(o, w, t, tc.targetBranch), t, tc.targetBranch);
      var ds := w.dirs + {dest};
      var copy := CopyContents(Join(project.gitDir, project.buildDir), dest);
      if o(World(ds, w.trace + sync), copy).ok {
        PublishAfterCopy(o, w, project, target, tc);
      } else {
        StrictFailedLast(o, World(ds, w.trace + sync), copy);
        assert PublishCases(o, w, project, target, tc) == Strict(o, World(ds, w.trace + sync), copy);
      }
    } else {
      assert w.trace + [] == w.trace;
    }
  }

  lemma PublishAfterCopy(o: Oracle, w: World, project: ProjectRecord, target: TargetRecord, tc: TargetConfig)
    requires target.path in w.dirs
    requires var dest := Destination(project, target, tc);
      var sync := SyncCommands(CheckoutSucceeds(o, w, target.path, tc.targetBranch), target.path, tc.targetBranch);
      o(World(w.dirs + {dest}, w.trace + sync), CopyContents(Join(project.gitDir, project.buildDir), dest)).ok
    ensures var dest := Destination(project, target, tc);
      var sync := SyncCommands(CheckoutSucceeds(o, w, target.path, tc.targetBranch), target.path, tc.targetBranch);
      var w8 := World(w.dirs + {dest}, w.trace + sync + [CopyContents(Join(project.gitDir, project.buildDir), dest)]);
      var s := PublishCases(o, w, project, target, tc);
      && s == ReleaseCases(o, w8, project.gitDir, target, tc)
      && s.Final() == World(w.dirs + {dest}, w.trace + PublishCommands(o, w, project, target, tc))
      && (s.Stop? ==> s.report.outcome.Aborted? && s.report.outcome.failure.CommandFailed? && FailedLast(o, s.report))
  {
    var dest := Destination(project, target, tc);
    var sync := SyncCommands(CheckoutSucceeds(o, w, target.path, tc.targetBranch), target.path, tc.targetBranch);
    var copy := CopyContents(Join(project.gitDir, project.buildDir), dest);
    var w8 := World(w.dirs + {dest}, w.trace + sync + [copy]);
    ReleaseFinal(o, w8, project.gitDir, target, tc);
    Regroup(w.trace, sync, [copy], ReleaseCommands(o, w8, project.gitDir, target, tc));
  }

  /**
   * A resolved run creates the source checkout and, when the publish steps
   * found their checkout, the destination; it issues the source commands and,
   * when those went on, the publish commands. A missing publish checkout stops
   * it exactly when the source steps went on and the directory is absent;
   * any other stop is for the last command issued, which the oracle failed there.
   */
  lemma RunFinal(o: Oracle, w: World, project: ProjectRecord, target: TargetRecord, tc: TargetConfig)
    ensures var s, p := RunCases(o, w, project, target, tc), PrepareCases(o, w, project, tc);
      var d, t := project.gitDir, target.path;
      var published := p.Next? && t in w.dirs + {d};
      && s.Final() == World(w.dirs + {d} + (if published then {Destination(project, target, tc)} else {}),
                            w.trace + PrepareCommands(o, w, project, tc)
                            + (if p.Next? then PublishCommands(o, p.world, project, target, tc) else []))
      && (s.Stop? && s.report.outcome == Aborted(TargetDirMissing) <==> p.Next? && t !in w.dirs + {d})
      && (s.Stop? ==>
            && s.report.outcome.Aborted?
            && (s.report.outcome.failure.CommandFailed? || s.report.outcome.failure.TargetDirMissing?)
            && FailedLast(o, s.report))
  {
    var p := PrepareCases(o, w, project, tc);
    PrepareFinal(o, w, project, tc);
    if p.Next? {
      PublishFinal(o, p.world, project, target, tc);
      var pc := PrepareCommands(o, w, project, tc);
      assert p.world.trace + PublishCommands(o, p.world, project, target, tc)
        == w.trace + pc + PublishCommands(o, p.world, project, target, tc);
    } else {
      assert w.trace + PrepareCommands(o, w, project, tc) + [] == w.trace + PrepareCommands(o, w, project, tc);
      assert w.dirs + {project.gitDir} + {} == w.dirs + {project.gitDir};
    }
  }

  /** A world whose trace extends w's by cs issued exactly cs after w. */
  lemma IssuedAfter(after: World, w: World, cs: seq<Command>)
    requires after.trace == w.trace + cs
    ensures w.trace <= after.trace && Issued(after, w) == cs
  {
  }

  lemma Assoc(a: seq<Command>, b: seq<Command>, c: seq<Command>)
    ensures a + b + c == a + (b + c)
  {
  }

  lemma Regroup5(a: seq<Command>, b: seq<Command>, c: seq<Command>, d: seq<Command>, e: seq<Command>)
    ensures a + b + c + d + e == a + (b + c + d + e)
  {
  }

  lemma AddPair(s: set<Path>, a: Path, b: Path)
    ensures s + {a} + {b} == s + {a, b}
  {
  }

  lemma Regroup(a: seq<Command>, b: seq<Command>, c: seq<Command>, d: seq<Command>)
    ensures a + b + c + d == a + (b + c + d)
  {
  }

  /** The request selects exactly these records. */
  predicate Selects(settings: Settings, req: BuildRequest, project: ProjectRecord, target: TargetRecord, tc: TargetConfig)
  {
    && req.projectKey in settings.projects && settings.projects[req.projectKey] == project
    && req.projectKey in settings.targets && settings.targets[req.projectKey] == target
    && FindConfig(project.targetConfigs, req.deployEnv) == Some(tc)
  }

  lemma DeployTable(settings: Settings, req: BuildRequest, o: Oracle, w: World,
                    project: ProjectRecord, target: TargetRecord, tc: TargetConfig)
    requires Selects(settings, req, project, target, tc)
    ensures Deploy(settings, req, o, w) == Finish(RunCases(o, w, project, target, tc))
  {
    RunTable(o, w, project, target, tc);
  }

  /** A command only the source steps issue. */
  predicate IsSourceStep(c: Command)
  {
    c.GitFetchAll? || c.NpmInstall? || c.RunScript? || c.GitClone?
  }

  predicate NoSourceStep(cs: seq<Command>)
  {
    forall c :: c in cs ==> !IsSourceStep(c)
  }

  /** None of cs is a clone. */
  predicate NoClone(cs: seq<Command>)
  {
    forall c :: c in cs ==> !c.GitClone?
  }

  /**
   * The source commands: the fetch first, and alone when it fails; all run
   * inside the source checkout, none is a clone, and once the fetch
   * succeeded the install is among them exactly when node_modules is absent.
   */
  lemma PrepareCommandsShape(o: Oracle, w: World, project: ProjectRecord, tc: TargetConfig)
    ensures var cs, d := PrepareCommands(o, w, project, tc), project.gitDir;
      var fetched := o(World(w.dirs + {d}, w.trace), GitFetchAll(d)).ok;
      && |cs| >= 1 && cs[0] == GitFetchAll(d)
      && (!fetched ==> cs == [GitFetchAll(d)])
      && InDir(cs, d) && NoClone(cs)
      && (fetched ==> (NpmInstall(d) in cs <==> NodeModules(d) !in w.dirs))
  {
    var d := project.gitDir;
    var fetch := GitFetchAll(d);
    if o(World(w.dirs + {d}, w.trace), fetch).ok {
      var checkedOut := CheckoutSucceeds(o, World(w.dirs + {d}, w.trace + [fetch]), d, tc.branch);
      SyncCommandsShape(checkedOut, d, tc.branch);
    }
  }

  /** Steps 9 and 10 issue at least one command, and none of the source-side ones. */
  lemma ReleaseCommandsShape(o: Oracle, w: World, d: Path, target: TargetRecord, tc: TargetConfig)
    ensures var cs := ReleaseCommands(o, w, d, target, tc);
      NoSourceStep(cs) && |cs| >= 1
  {
  }

  /** The publish commands include no source-side command, and some command once the publish checkout exists. */
  lemma PublishCommandsShape(o: Oracle, w: World, project: ProjectRecord, target: TargetRecord, tc: TargetConfig)
    ensures var cs := PublishCommands(o, w, project, target, tc);
      NoSourceStep(cs) && (target.path in w.dirs ==> |cs| >= 1)
  {
    var t, dest := target.path, Destination(project, target, tc);
    if t in w.dirs {
      var sync := SyncCommands(CheckoutSucceeds(o, w, t, tc.targetBranch), t, tc.targetBranch);
      SyncCommandsShape(CheckoutSucceeds(o, w, t, tc.targetBranch), t, tc.targetBranch);
      var copy := CopyContents(Join(project.gitDir, project.buildDir), dest);
      NoSourceConcat(sync, [copy]);
      var w8 := World(w.dirs + {dest}, w.trace + sync + [copy]);
      if o(World(w.dirs + {dest}, w.trace + sync), copy).ok {
        ReleaseCommandsShape(o, w8, project.gitDir, target, tc);
        NoSourceConcat(sync + [copy], ReleaseCommands(o, w8, project.gitDir, target, tc));
      }
    }
  }

  lemma NoSourceConcat(a: seq<Command>, b: seq<Command>)
    requires NoSourceStep(a) && NoSourceStep(b)
    ensures NoSourceStep(a + b)
  {
  }

  /**
   * Configuration errors: a missing project is an abort, a missing target
   * record or environment entry an early return, and in both cases no
   * command is issued and no directory is created.
   */
  lemma ConfigErrorsIssueNothing(settings: Settings, req: BuildRequest, o: Oracle, w: World)
    ensures var r := Deploy(settings, req, o, w);
      && (r.outcome == Aborted(ProjectMissing) <==> req.projectKey !in settings.projects)
      && (r.outcome == ConfigMissing <==> req.projectKey in settings.projects && !Resolves(settings, req))
      && (!Resolves(settings, req) ==> r.world == w)
  {
    if Resolves(settings, req) {
      var project := settings.projects[req.projectKey];
      var target, tc := settings.targets[req.projectKey], FindConfig(project.targetConfigs, req.deployEnv).value;
      DeployTable(settings, req, o, w, project, target, tc);
      RunFinal(o, w, project, target, tc);
    }
  }

  /**
   * Directories are only ever added and commands only appended; no command
   * is issued after a strict failure: the failed command is the last one in
   * the trace, and the oracle failed it there.
   */
  lemma AbortIsFinal(settings: Settings, req: BuildRequest, o: Oracle, w: World)
    ensures var r := Deploy(settings, req, o, w);
      Extends(r.world, w) && FailedLast(o, r)
  {
    if Resolves(settings, req) {
      var project := settings.projects[req.projectKey];
      var target, tc := settings.targets[req.projectKey], FindConfig(project.targetConfigs, req.deployEnv).value;
      DeployTable(settings, req, o, w, project, target, tc);
      RunFinal(o, w, project, target, tc);
      var p := PrepareCases(o, w, project, tc);
      var cs := PrepareCommands(o, w, project, tc) + (if p.Next? then PublishCommands(o, p.world, project, target, tc) else []);
      var r := Deploy(settings, req, o, w);
      assert r.world == RunCases(o, w, project, target, tc).Final();
      Assoc(w.trace, PrepareCommands(o, w, project, tc), if p.Next? then PublishCommands(o, p.world, project, target, tc) else []);
      IssuedAfter(r.world, w, cs);
    }
  }

  /**
   * What a resolved deployment issues: the source commands and, when the
   * source steps went on, the publish commands.
   */
  lemma DeployIssued(settings: Settings, req: BuildRequest, o: Oracle, w: World,
                     project: ProjectRecord, target: TargetRecord, tc: TargetConfig)
    requires Selects(settings, req, project, target, tc)
    ensures var r, p := Deploy(settings, req, o, w), PrepareCases(o, w, project, tc);
      && Extends(r.world, w)
      && Issued(r.world, w) == PrepareCommands(o, w, project, tc)
           + (if p.Next? then PublishCommands(o, p.world, project, target, tc) else [])
  {
    DeployTable(settings, req, o, w, project, target, tc);
    RunFinal(o, w, project, target, tc);
    var p := PrepareCases(o, w, project, tc);
    var cs := PrepareCommands(o, w, project, tc) + (if p.Next? then PublishCommands(o, p.world, project, target, tc) else []);
    var r := Deploy(settings, req, o, w);
    assert r.world == RunCases(o, w, project, target, tc).Final();
    Assoc(w.trace, PrepareCommands(o, w, project, tc), if p.Next? then PublishCommands(o, p.world, project, target, tc) else []);
    IssuedAfter(r.world, w, cs);
  }

  /** The clone branch is dead: the checkout directory is created just before it is tested, so clone is never issued. */
  lemma NeverClones(settings: Settings, req: BuildRequest, o: Oracle, w: World)
    ensures var r := Deploy(settings, req, o, w);
      Extends(r.world, w) && NoClone(Issued(r.world, w))
  {
    AbortIsFinal(settings, req, o, w);
    if Resolves(settings, req) {
      var project := settings.projects[req.projectKey];
      var target, tc := settings.targets[req.projectKey], FindConfig(project.targetConfigs, req.deployEnv).value;
      DeployIssued(settings, req, o, w, project, target, tc);
      PrepareCommandsShape(o, w, project, tc);
      var p := PrepareCases(o, w, project, tc);
      if p.Next? {
        PublishCommandsShape(o, p.world, project, target, tc);
      }
    } else {
      assert Issued(w, w) == [];
    }
  }

  /**
   * The fetch is issued first, after the checkout directory is created; it is
   * strict, so when it fails the run aborts with nothing else issued.
   */
  lemma FetchFirstAndStrict(settings: Settings, req: BuildRequest, o: Oracle, w: World,
                            project: ProjectRecord, target: TargetRecord, tc: TargetConfig)
    requires Selects(settings, req, project, target, tc)
    ensures var r, d := Deploy(settings, req, o, w), project.gitDir;
      var fetch, created := GitFetchAll(d), w.MakeDir(d);
      && Extends(r.world, w)
      && |Issued(r.world, w)| >= 1 && Issued(r.world, w)[0] == fetch
      && (!o(created, fetch).ok ==> r == Report(created.Issue(fetch), Aborted(CommandFailed(fetch))))
  {
    DeployIssued(settings, req, o, w, project, target, tc);
    PrepareCommandsShape(o, w, project, tc);
    DeployTable(settings, req, o, w, project, target, tc);
  }

  /** Once the fetch has succeeded, npm install is issued exactly when node_modules is absent. */
  lemma InstallIffNoNodeModules(settings: Settings, req: BuildRequest, o: Oracle, w: World,
                                project: ProjectRecord, target: TargetRecord, tc: TargetConfig)
    requires Selects(settings, req, project, target, tc)
    requires o(w.MakeDir(project.gitDir), GitFetchAll(project.gitDir)).ok
    ensures var r, d := Deploy(settings, req, o, w), project.gitDir;
      Extends(r.world, w) && (NpmInstall(d) in Issued(r.world, w) <==> NodeModules(d) !in w.dirs)
  {
    DeployIssued(settings, req, o, w, project, target, tc);
    PrepareCommandsShape(o, w, project, tc);
    var p := PrepareCases(o, w, project, tc);
    if p.Next? {
      PublishCommandsShape(o, p.world, project, target, tc);
    }
  }

  /** A missing publish checkout aborts the run exactly when the source steps went on and that directory does not exist. */
  lemma TargetMissingAborts(settings: Settings, req: BuildRequest, o: Oracle, w: World,
                            project: ProjectRecord, target: TargetRecord, tc: TargetConfig)
    requires Selects(settings, req, project, target, tc)
    ensures Deploy(settings, req, o, w).outcome == Aborted(TargetDirMissing)
        <==> PrepareSource(o, w, project, tc).Next? && target.path !in w.dirs + {project.gitDir}
  {
    PrepareTable(o, w, project, tc);
    DeployTable(settings, req, o, w, project, target, tc);
    RunFinal(o, w, project, target, tc);
  }

  /**
   * After an abort for a missing publish checkout, or after a failed fetch,
   * install or build, every command issued ran inside the source checkout.
   */
  lemma SourceFailuresStayInSource(settings: Settings, req: BuildRequest, o: Oracle, w: World,
                                   project: ProjectRecord, target: TargetRecord, tc: TargetConfig)
    requires Selects(settings, req, project, target, tc)
    ensures var r, d := Deploy(settings, req, o, w), project.gitDir;
      && Extends(r.world, w)
      && (r.outcome == Aborted(TargetDirMissing)
          || (r.outcome.Aborted? && r.outcome.failure.CommandFailed? && IsSourceStep(r.outcome.failure.cmd))
          ==> InDir(Issued(r.world, w), d))
  {
    var d := project.gitDir;
    DeployIssued(settings, req, o, w, project, target, tc);
    PrepareCommandsShape(o, w, project, tc);
    var p := PrepareCases(o, w, project, tc);
    var r := Deploy(settings, req, o, w);
    var pc := PrepareCommands(o, w, project, tc);
    if !p.Next? {
      assert pc + [] == pc;
    } else {
      PrepareFinal(o, w, project, tc);
      var qc := PublishCommands(o, p.world, project, target, tc);
      if target.path !in w.dirs + {d} {
        assert qc == [];
        assert pc + qc == pc;
      } else {
        DeployTable(settings, req, o, w, project, target, tc);
        RunFinal(o, w, project, target, tc);
        PublishCommandsShape(o, p.world, project, target, tc);
        if r.outcome.Aborted? && r.outcome.failure.CommandFailed? {
          Assoc(w.trace, pc, qc);
          assert r.world.trace == w.trace + (pc + qc);
          assert r.outcome.failure.cmd == qc[|qc| - 1];
        }
      }
    }
  }

  /** Source steps that went on issued the fetch first and the build last. */
  lemma PrepareWentOn(o: Oracle, w: World, project: ProjectRecord, tc: TargetConfig)
    requires PrepareCases(o, w, project, tc).Next?
    ensures var pc := PrepareCommands(o, w, project, tc);
      |pc| >= 2 && pc[0] == GitFetchAll(project.gitDir) && pc[|pc| - 1] == RunScript(project.gitDir, tc.buildCommand)
  {
  }

  /**
   * Publish steps that went on found their checkout, copied the build output
   * and ended with add, a commit whose message carries the automatic-build
   * prefix, and push, all in the publish checkout.
   */
  lemma PublishWentOn(o: Oracle, w: World, project: ProjectRecord, target: TargetRecord, tc: TargetConfig)
    requires PublishCases(o, w, project, target, tc).Next?
    ensures var qc, t := PublishCommands(o, w, project, target, tc), target.path;
      var n := |qc|;
      && target.path in w.dirs
      && n >= 4
      && CopyContents(Join(project.gitDir, project.buildDir), Destination(project, target, tc)) in qc[..n - 3]
      && qc[n - 3] == GitAddAll(t)
      && qc[n - 2].GitCommit? && qc[n - 2].dir == t && CommitPrefix <= qc[n - 2].message
      && qc[n - 1] == GitPush(t, tc.targetBranch)
  {
    var t, dest := target.path, Destination(project, target, tc);
    var sync := SyncCommands(CheckoutSucceeds(o, w, t, tc.targetBranch), t, tc.targetBranch);
    var copy := CopyContents(Join(project.gitDir, project.buildDir), dest);
    var w8 := World(w.dirs + {dest}, w.trace + sync + [copy]);
    assert t in w.dirs;
    assert o(World(w.dirs + {dest}, w.trace + sync), copy).ok;
    PublishAfterCopy(o, w, project, target, tc);
    ReleaseFinal(o, w8, project.gitDir, target, tc);
    var q := Inspect(o, w8, project.gitDir);
    var qs := Queries(o(w8, GitCurrentBranch(project.gitDir)).ok, project.gitDir);
    var add, commit, push := GitAddAll(t), GitCommit(t, CommitMessage(q.1)), GitPush(t, tc.targetBranch);
    assert PublishCommands(o, w, project, target, tc) == sync + [copy] + ReleaseCommands(o, w8, project.gitDir, target, tc);
    LastThree(sync + [copy], qs, add, commit, push);
    assert copy in (sync + [copy]) + qs;
  }

  /** The last three of a list that ends with them, and what comes before. */
  lemma LastThree(pre: seq<Command>, mid: seq<Command>, a: Command, b: Command, c: Command)
    ensures var cs := pre + (mid + [a, b, c]);
      var n := |cs|;
      && n >= 3 && cs[n - 3] == a && cs[n - 2] == b && cs[n - 1] == c && cs[..n - 3] == pre + mid
  {
    assert pre + (mid + [a, b, c]) == (pre + mid) + [a, b, c];
  }

  /** The commands of a resolved run that went on to the end, in the order CompletedRun states. */
  predicate CompletedShape(cs: seq<Command>, project: ProjectRecord, target: TargetRecord, tc: TargetConfig)
  {
    var d, t, n := project.gitDir, target.path, |cs|;
    && n >= 6
    && cs[0] == GitFetchAll(d)
    && (exists i, j :: 0 <= i < j < n - 3 && cs[i] == RunScript(d, tc.buildCommand)
                        && cs[j] == CopyContents(Join(d, project.buildDir), Destination(project, target, tc)))
    && cs[n - 3] == GitAddAll(t)
    && cs[n - 2].GitCommit? && cs[n - 2].dir == t && CommitPrefix <= cs[n - 2].message
    && cs[n - 1] == GitPush(t, tc.targetBranch)
  }

  /** Source commands that end with the build, followed by publish commands that went on to the end. */
  lemma CompletedConcat(pc: seq<Command>, qc: seq<Command>, project: ProjectRecord, target: TargetRecord, tc: TargetConfig)
    requires |pc| >= 2 && pc[0] == GitFetchAll(project.gitDir) && pc[|pc| - 1] == RunScript(project.gitDir, tc.buildCommand)
    requires var n, t := |qc|, target.path;
      && n >= 4
      && CopyContents(Join(project.gitDir, project.buildDir), Destination(project, target, tc)) in qc[..n - 3]
      && qc[n - 3] == GitAddAll(t)
      && qc[n - 2].GitCommit? && qc[n - 2].dir == t && CommitPrefix <= qc[n - 2].message
      && qc[n - 1] == GitPush(t, tc.targetBranch)
    ensures CompletedShape(pc + qc, project, target, tc)
  {
    var copy := CopyContents(Join(project.gitDir, project.buildDir), Destination(project, target, tc));
    var cs := pc + qc;
    var k :| 0 <= k < |qc| - 3 && qc[..|qc| - 3][k] == copy;
    assert cs[|pc| - 1] == RunScript(project.gitDir, tc.buildCommand);
    assert cs[|pc| + k] == copy;
  }

  lemma RunWentOn(o: Oracle, w: World, project: ProjectRecord, target: TargetRecord, tc: TargetConfig)
    requires RunCases(o, w, project, target, tc).Next?
    ensures var s, p := RunCases(o, w, project, target, tc), PrepareCases(o, w, project, tc);
      && p.Next?
      && s.Final().dirs == w.dirs + {project.gitDir, Destination(project, target, tc)}
      && s.Final().trace == w.trace + (PrepareCommands(o, w, project, tc) + PublishCommands(o, p.world, project, target, tc))
      && CompletedShape(PrepareCommands(o, w, project, tc) + PublishCommands(o, p.world, project, target, tc), project, target, tc)
  {
    var p := PrepareCases(o, w, project, tc);
    assert p.Next? && PublishCases(o, p.world, project, target, tc).Next?;
    PrepareFinal(o, w, project, tc);
    PrepareWentOn(o, w, project, tc);
    PublishWentOn(o, p.world, project, target, tc);
    RunFinal(o, w, project, target, tc);
    var pc, qc := PrepareCommands(o, w, project, tc), PublishCommands(o, p.world, project, target, tc);
    Assoc(w.trace, pc, qc);
    AddPair(w.dirs, project.gitDir, Destination(project, target, tc));
    CompletedConcat(pc, qc, project, target, tc);
  }

  /**
   * A completed deployment created the source checkout and the destination,
   * began with the fetch, built before copying, copied before releasing, and
   * ended with add, a commit carrying the automatic-build prefix, and push
   * in the publish checkout.
   */
  lemma CompletedRun(settings: Settings, req: BuildRequest, o: Oracle, w: World,
                     project: ProjectRecord, target: TargetRecord, tc: TargetConfig)
    requires Selects(settings, req, project, target, tc)
    requires Deploy(settings, req, o, w).outcome == Completed
    ensures var r := Deploy(settings, req, o, w);
      && Extends(r.world, w)
      && r.world.dirs == w.dirs + {project.gitDir, Destination(project, target, tc)}
      && CompletedShape(Issued(r.world, w), project, target, tc)
  {
    DeployTable(settings, req, o, w, project, target, tc);
    RunFinal(o, w, project, target, tc);
    RunWentOn(o, w, project, target, tc);
    var r := Deploy(settings, req, o, w);
    assert Issued(r.world, w) == PrepareCommands(o, w, project, tc) + PublishCommands(o, PrepareCases(o, w, project, tc).world, project, target, tc);
  }

  /** An environment in which every command succeeds. */
  ghost predicate AlwaysSucceeds(o: Oracle)
  {
    forall v, c :: o(v, c).ok
  }

  /**
   * The source commands of a run in which every command succeeds, written
   * without the oracle; `SourceCommandsAgree` shows it is `PrepareCommands`
   * for such an oracle.
   */
  function SourceCommands(w: World, project: ProjectRecord, tc: TargetConfig): (cs: seq<Command>)
  {
    var d := project.gitDir;
    [GitFetchAll(d)] + SyncCommands(true, d, tc.branch)
    + (if NodeModules(d) !in w.dirs then [NpmInstall(d)] else []) + [RunScript(d, tc.buildCommand)]
  }

  lemma PrepareSucceeds(o: Oracle, w: World, project: ProjectRecord, tc: TargetConfig)
    requires AlwaysSucceeds(o)
    ensures PrepareCases(o, w, project, tc) == Next(World(w.dirs + {project.gitDir}, w.trace + SourceCommands(w, project, tc)))
  {
    var d := project.gitDir;
    var install := if NodeModules(d) !in w.dirs then [NpmInstall(d)] else [];
    assert w.trace + [GitFetchAll(d)] + SyncCommands(true, d, tc.branch) + install + [RunScript(d, tc.buildCommand)]
      == w.trace + SourceCommands(w, project, tc);
  }

  /** The publish commands up to the copy, in a run in which every command succeeds. */
  function PublishPrefix(project: ProjectRecord, target: TargetRecord, tc: TargetConfig): (cs: seq<Command>)
  {
    SyncCommands(true, target.path, tc.targetBranch) + [CopyContents(Join(project.gitDir, project.buildDir), Destination(project, target, tc))]
  }

  /** Steps 9 and 10 when every command succeeds: both queries, add, commit with the parsed subject, push. */
  lemma ReleaseSucceeds(o: Oracle, w: World, d: Path, target: TargetRecord, tc: TargetConfig)
    requires AlwaysSucceeds(o)
    ensures var t := target.path;
      var info := ParseCommit(o(w, GitCurrentBranch(d)).stdout, o(w.Issue(GitCurrentBranch(d)), GitLastCommit(d)).stdout);
      ReleaseCases(o, w, d, target, tc)
        == Next(World(w.dirs, w.trace + [GitCurrentBranch(d), GitLastCommit(d), GitAddAll(t),
                                        GitCommit(t, CommitMessage(info)), GitPush(t, tc.targetBranch)]))
  {
    var t := target.path;
    var branchQ, logQ := GitCurrentBranch(d), GitLastCommit(d);
    assert o(w, branchQ).ok && o(w.Issue(branchQ), logQ).ok;
    var info := ParseCommit(o(w, branchQ).stdout, o(w.Issue(branchQ), logQ).stdout);
    var w1 := w.Issue(branchQ).Issue(logQ);
    assert Inspect(o, w, d) == (w1, info);
    var add, commit, push := GitAddAll(t), GitCommit(t, CommitMessage(info)), GitPush(t, tc.targetBranch);
    var w2 := w1.Issue(add);
    assert o(w1, add).ok && o(w2, commit).ok && o(w2.Issue(commit), push).ok;
    assert ReleaseCases(o, w, d, target, tc) == Next(w2.Issue(commit).Issue(push));
    AppendFive(w.trace, branchQ, logQ, add, commit, push);
  }

  lemma AppendFive(t: seq<Command>, a: Command, b: Command, c: Command, d: Command, e: Command)
    ensures t + [a] + [b] + [c] + [d] + [e] == t + [a, b, c, d, e]
  {
  }

  /** Steps 6 to 8 when every command succeeds and the publish checkout exists: synchronize, copy, then steps 9 and 10. */
  lemma PublishCopies(o: Oracle, w: World, project: ProjectRecord, target: TargetRecord, tc: TargetConfig)
    requires AlwaysSucceeds(o)
    requires target.path in w.dirs
    ensures PublishCases(o, w, project, target, tc)
      == ReleaseCases(o, World(w.dirs + {Destination(project, target, tc)}, w.trace + PublishPrefix(project, target, tc)),
                      project.gitDir, target, tc)
  {
    var t, dest := target.path, Destination(project, target, tc);
    var copy := CopyContents(Join(project.gitDir, project.buildDir), dest);
    assert CheckoutSucceeds(o, w, t, tc.targetBranch);
    assert w.trace + SyncCommands(true, t, tc.targetBranch) + [copy] == w.trace + PublishPrefix(project, target, tc);
  }

  /**
   * The source steps, then the publish steps, when every command succeeds and
   * the publish checkout exists once the source checkout is created.
   */
  lemma RunSucceeds(o: Oracle, w: World, project: ProjectRecord, target: TargetRecord, tc: TargetConfig)
    requires AlwaysSucceeds(o)
    requires target.path in w.dirs + {project.gitDir}
    ensures var d, t := project.gitDir, target.path;
      var wq := World(w.dirs + {d} + {Destination(project, target, tc)},
                      w.trace + SourceCommands(w, project, tc) + PublishPrefix(project, target, tc));
      var info := ParseCommit(o(wq, GitCurrentBranch(d)).stdout, o(wq.Issue(GitCurrentBranch(d)), GitLastCommit(d)).stdout);
      RunCases(o, w, project, target, tc)
        == Next(World(wq.dirs, wq.trace + [GitCurrentBranch(d), GitLastCommit(d), GitAddAll(t),
                                          GitCommit(t, CommitMessage(info)), GitPush(t, tc.targetBranch)]))
  {
    var d, dest := project.gitDir, Destination(project, target, tc);
    PrepareSucceeds(o, w, project, tc);
    var w5 := World(w.dirs + {d}, w.trace + SourceCommands(w, project, tc));
    PublishCopies(o, w5, project, target, tc);
    ReleaseSucceeds(o, World(w5.dirs + {dest}, w5.trace + PublishPrefix(project, target, tc)), d, target, tc);
  }

  /**
   * The commands after the copy when every command succeeds: both queries,
   * add, the commit, push; `ReleaseTailAgrees` shows it is `ReleaseCommands`
   * for such an oracle.
   */
  function ReleaseTail(o: Oracle, wq: World, d: Path, target: TargetRecord, tc: TargetConfig): (cs: seq<Command>)
  {
    var t := target.path;
    var info := ParseCommit(o(wq, GitCurrentBranch(d)).stdout, o(wq.Issue(GitCurrentBranch(d)), GitLastCommit(d)).stdout);
    [GitCurrentBranch(d), GitLastCommit(d), GitAddAll(t), GitCommit(t, CommitMessage(info)), GitPush(t, tc.targetBranch)]
  }

  lemma CancelPrefix(t: seq<Command>, a: seq<Command>, b: seq<Command>)
    requires t + a == t + b
    ensures a == b
  {
    assert a == (t + a)[|t|..];
    assert b == (t + b)[|t|..];
  }

  /** When every command succeeds, the source steps issue exactly the oracle-free list `SourceCommands`. */
  lemma SourceCommandsAgree(o: Oracle, w: World, project: ProjectRecord, tc: TargetConfig)
    requires AlwaysSucceeds(o)
    ensures PrepareCommands(o, w, project, tc) == SourceCommands(w, project, tc)
  {
    PrepareFinal(o, w, project, tc);
    PrepareSucceeds(o, w, project, tc);
    CancelPrefix(w.trace, PrepareCommands(o, w, project, tc), SourceCommands(w, project, tc));
  }

  /** When every command succeeds, steps 9 and 10 issue exactly the list `ReleaseTail`. */
  lemma ReleaseTailAgrees(o: Oracle, wq: World, d: Path, target: TargetRecord, tc: TargetConfig)
    requires AlwaysSucceeds(o)
    ensures ReleaseCommands(o, wq, d, target, tc) == ReleaseTail(o, wq, d, target, tc)
  {
    ReleaseFinal(o, wq, d, target, tc);
    ReleaseSucceeds(o, wq, d, target, tc);
    CancelPrefix(wq.trace, ReleaseCommands(o, wq, d, target, tc), ReleaseTail(o, wq, d, target, tc));
  }

  lemma DeploySucceeds(settings: Settings, req: BuildRequest, o: Oracle, w: World,
                       project: ProjectRecord, target: TargetRecord, tc: TargetConfig)
    requires Selects(settings, req, project, target, tc)
    requires AlwaysSucceeds(o)
    requires target.path in w.dirs + {project.gitDir}
    ensures var d, dest := project.gitDir, Destination(project, target, tc);
      var pre := SourceCommands(w, project, tc) + PublishPrefix(project, target, tc);
      var wq := World(w.dirs + {d} + {dest}, w.trace + SourceCommands(w, project, tc) + PublishPrefix(project, target, tc));
      Deploy(settings, req, o, w) == Report(World(wq.dirs, w.trace + (pre + ReleaseTail(o, wq, d, target, tc))), Completed)
  {
    DeployTable(settings, req, o, w, project, target, tc);
    RunSucceeds(o, w, project, target, tc);
    var d, dest := project.gitDir, Destination(project, target, tc);
    var wq := World(w.dirs + {d} + {dest}, w.trace + SourceCommands(w, project, tc) + PublishPrefix(project, target, tc));
    Regroup(w.trace, SourceCommands(w, project, tc), PublishPrefix(project, target, tc), ReleaseTail(o, wq, d, target, tc));
  }

  /**
   * When every command succeeds and the publish checkout exists once the
   * source checkout is created, the deployment completes, issuing exactly:
   * the fetch, the source synchronization, the install when node_modules is
   * absent, the build, the publish synchronization, the copy, both commit
   * queries, add, the commit whose message is built from the parsed record,
   * and push.
   */
  lemma HappyPath(settings: Settings, req: BuildRequest, o: Oracle, w: World,
                  project: ProjectRecord, target: TargetRecord, tc: TargetConfig)
    requires Selects(settings, req, project, target, tc)
    requires AlwaysSucceeds(o)
    requires target.path in w.dirs + {project.gitDir}
    ensures var r, d, t := Deploy(settings, req, o, w), project.gitDir, target.path;
      var pre := SourceCommands(w, project, tc) + PublishPrefix(project, target, tc);
      var dest := Destination(project, target, tc);
      var wq := World(w.dirs + {d} + {dest}, w.trace + SourceCommands(w, project, tc) + PublishPrefix(project, target, tc));
      var info := ParseCommit(o(wq, GitCurrentBranch(d)).stdout, o(wq.Issue(GitCurrentBranch(d)), GitLastCommit(d)).stdout);
      && r.outcome == Completed
      && r.world.dirs == w.dirs + {d, dest}
      && w.trace <= r.world.trace
      && Issued(r.world, w) == pre + [GitCurrentBranch(d), GitLastCommit(d), GitAddAll(t),
                                      GitCommit(t, CommitMessage(info)), GitPush(t, tc.targetBranch)]
  {
    DeploySucceeds(settings, req, o, w, project, target, tc);
    var r, d := Deploy(settings, req, o, w), project.gitDir;
    var dest := Destination(project, target, tc);
    var wq := World(w.dirs + {d} + {dest}, w.trace + SourceCommands(w, project, tc) + PublishPrefix(project, target, tc));
    IssuedAfter(r.world, w, SourceCommands(w, project, tc) + PublishPrefix(project, target, tc) + ReleaseTail(o, wq, d, target, tc));
    AddPair(w.dirs, d, dest);
  }

  /**
   * The copy destination lies inside the publish checkout: under the
   * per-environment directory when that is a non-empty string, otherwise
   * under the project's default (an empty override counts as absent).
   */
  lemma DestinationChoice(project: ProjectRecord, target: TargetRecord, tc: TargetConfig)
    ensures var dest := Destination(project, target, tc);
      && target.path <= dest
      && (tc.targetDir.Some? && tc.targetDir.value != "" ==> dest == Join(target.path, tc.targetDir.value))
      && (tc.targetDir.None? || tc.targetDir == Some("") ==> dest == Join(target.path, project.targetDir))
      && (Truthy(tc.targetDir) || project.targetDir != "" ==> |dest| > |target.path|)
  {
  }

  /** The publish commit's message for well-formed log output: the prefix, then the subject. */
  lemma FormattedMessage(branchOut: string, logOut: string, pre: string, post: string,
                         h: string, s: string, a: string, d: string)
    requires logOut == pre + JoinWith([h, s, a, d], Bar) + post
    requires AllSpace(pre) && AllSpace(post)
    requires BarFree([h, s, a, d])
    requires h == "" || !IsSpace(h[0])
    requires d == "" || !IsSpace(d[|d| - 1])
    ensures CommitMessage(ParseCommit(branchOut, logOut)) == CommitPrefix + s
  {
    ParseFormatted(branchOut, logOut, pre, post, h, s, a, d);
  }

  /**
   * The publish commit's message when the log output holds no `|`: the
   * prefix and "undefined"; and when the inspector fell back, the prefix and
   * the lookup-failed text.
   */
  lemma UnparsedMessage(branchOut: string, logOut: string)
    requires Bar !in Trim(logOut)
    ensures CommitMessage(ParseCommit(branchOut, logOut)) == CommitPrefix + "undefined"
    ensures CommitMessage(Fallback) == CommitPrefix + LookupFailed
  {
    ParseWithoutBar(branchOut, logOut);
  }
}
