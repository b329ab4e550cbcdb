/**
 * The configuration records the deployment reads (projects and deploy
 * targets keyed by project name) and the two lookups made on them: the
 * per-environment entry of a project, and the publish sub-directory.
 */
module Config {
  import opened Wrappers
  import opened Shell

  /** The deployment environments offered to the operator. */
  const EnvKeys: seq<string> := ["测试", "预发", "生产"]

  /** One per-environment entry of a project. */
  datatype TargetConfig = TargetConfig(
    name: string,               // the environment it applies to
    branch: string,             // source branch to build
    targetBranch: string,       // branch of the publish repository
    targetDir: Option<string>,  // publish sub-directory override, absent when not configured
    buildCommand: string)

  datatype ProjectRecord = ProjectRecord(
    gitDir: Path,               // local checkout of the source project
    gitPath: string,            // remote URL of the source project
    buildDir: string,           // build output sub-directory
    targetDir: string,          // default publish sub-directory
    targetConfigs: seq<TargetConfig>)

  /** The local checkout of the publish repository. */
  datatype TargetRecord = TargetRecord(path: Path)

  datatype Settings = Settings(projects: map<string, ProjectRecord>, targets: map<string, TargetRecord>)

  /** The operator's choice of project and environment. */
  datatype BuildRequest = BuildRequest(projectKey: string, deployEnv: string)

  /** `configs.find(c => c.name === env)`: the first entry for env, if any. */
  function FindConfig(configs: seq<TargetConfig>, env: string): (r: Option<TargetConfig>)
    ensures r.None? <==> forall i :: 0 <= i < |configs| ==> configs[i].name != env
    ensures r.Some? ==> exists i :: 0 <= i < |configs| && configs[i] == r.value && configs[i].name == env
                                 && forall j :: 0 <= j < i ==> configs[j].name != env
    decreases |configs|
  {
    if configs == [] then None
    else if configs[0].name == env then Some(configs[0])
    else
      var r := FindConfig(configs[1..], env);
      assert forall i :: 1 <= i < |configs| ==> configs[i] == configs[1..][i - 1];
      r
  }

  /** JavaScript truthiness of an optional string: present and non-empty. */
  predicate Truthy(s: Option<string>)
  {
    s.Some? && s.value != ""
  }

  /** `targetConfig.targetDir || project.targetDir`. */
  function PublishSubdir(tc: TargetConfig, project: ProjectRecord): (sub: string)
  {
    if Truthy(tc.targetDir) then tc.targetDir.value else project.targetDir
  }

  /** Entries for distinct environments are each found by their own name. */
  lemma {:induction false} FindDistinct(configs: seq<TargetConfig>, k: nat)
    requires k < |configs|
    requires forall i, j :: 0 <= i < j < |configs| ==> configs[i].name != configs[j].name
    ensures FindConfig(configs, configs[k].name) == Some(configs[k])
  {
    var r := FindConfig(configs, configs[k].name);
    var i :| 0 <= i < |configs| && configs[i] == r.value && configs[i].name == configs[k].name
             && forall j :: 0 <= j < i ==> configs[j].name != configs[k].name;
    assert i == k;
  }
}
