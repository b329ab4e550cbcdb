# micro-cli deployment pipeline, modelled in Dafny

micro-cli is a command-line tool that builds a front-end project from its
local git checkout and publishes the build output into a second git checkout.
This project models the deployment command, `startBuildProcess` in
`lib/commands/start.js`, and the three helpers it uses:
- `safeGitOperation`, a shell command whose failure is swallowed;
- `safeGitCheckout`, the repository synchronizer;
- `getLastCommitInfo`, the commit inspector.

The model runs against an abstract environment (module `Shell`). The
environment has three parts:
- `World.dirs`: the set of directories that exist;
- `World.trace`: the commands issued so far, oldest first;
- an `Oracle`: a function from the world and a command to a `Reply`, which says whether the command succeeds and what it prints.

Commands are abstract values carrying their kind, directory and branch. Only
the pipeline's own `mkdirSync` calls change the directory set.

Modules:
- `Text`: JavaScript `trim`, one-character `split` and `substring` (the last counted in Unicode characters, see "## Left out").
- `Config`: configuration records, the `find` lookup, the publish sub-directory choice.
- `CommitInspector`: parsing of `git log` output, and the fallback record.
- `Synchronizer`: the command sequence of `safeGitCheckout`.
- `Pipeline`: the whole command as pure functions. A strict command (a bare `execAsync`) that fails stops the run and becomes an `Aborted` outcome, which models the single outer `catch`.
- `DeployProperties`: the properties of `Pipeline.Deploy`. Each stage is given an unfolded case table, the stage function with every `:-` step and every intermediate world written out (`PrepareCases`, `PushCases`, `ReleaseCases`, `PublishCases`, `RunCases`), and a flat list of the commands it issues, as a function of the oracle's replies (`PrepareCommands`, `PushCommands`, `ReleaseCommands`, `PublishCommands`). Lemmas connect these to the stage functions, and the trace properties are proved over the flat lists. For the run in which every command succeeds, `SourceCommands`, `PublishPrefix` and `ReleaseTail` spell the commands out without the oracle, and `SourceCommandsAgree` and `ReleaseTailAgrees` tie them to the flat lists.
- `Host`: class `Host` holds `dirs` and `trace` as mutable fields and the oracle as a constant. Its methods follow the JavaScript functions statement by statement. Each method is proved to leave exactly the state its pure counterpart computes.

The model follows the code as written:
- **The clone branch is dead.** The source checkout is created at start.js:154-157, before it is tested at start.js:160. The pure model keeps the branch (`Pipeline.CloneOrFetch`), and `NeverClones` proves that it never runs. The `Host` method puts `assert false` in that branch.
- **The fetch is strict.** A failed `git fetch --all` aborts the run (start.js:173).
- **A missing project throws.** `project.targetConfigs` is read at start.js:136, before the check at start.js:141. The outcome is `Aborted(ProjectMissing)`. A missing target record or environment entry instead returns early (`ConfigMissing`).
- **The fallback commit message is `获取失败`, not `unknown`.** The other fallback fields are `unknown`, and the date is the current time.
- **Missing log fields are `undefined`.** Destructuring the `split('|')` result leaves absent fields `undefined` (`Field.Missing`). In the commit message such a field renders as the text `undefined`.
- **An empty override does not count.** `targetConfig.targetDir || project.targetDir` uses JavaScript truthiness, so an empty override falls back to the project default.

## Model

| member | source | states |
|---|---|---|
| Host.Host.Exec | lib/commands/start.js:9 | `execAsync`: the reply is the oracle's in the state before; the command is appended to the trace and nothing else changes |
| Host.Host.SafeGitOperation | lib/commands/start.js:44-53 | returns true exactly when the command succeeded and false otherwise; the command is issued once; nothing is raised |
| Host.Host.SafeGitCheckout | lib/commands/start.js:98-116 | the new state is exactly the one `Synchronizer.Sync` computes from the old one |
| Synchronizer.SyncTrace | lib/commands/start.js:98-116 | the synchronizer appends clean, reset, checkout, the forced checkout only when the plain checkout failed, then pull; directories are unchanged |
| Synchronizer.SyncCommandsShape | lib/commands/start.js:98-116 | the forced checkout is issued if and only if the plain checkout failed; the pull is always last; all commands run in the given directory and are git commands of the five kinds |
| Synchronizer.SyncIgnoresOtherReplies | lib/commands/start.js:98-116 | failures of clean, reset and pull are absorbed: oracles that agree on the checkout give the same result |
| Host.Host.GetLastCommitInfo | lib/commands/start.js:56-95 | the new state and the returned record are exactly those of `CommitInspector.Inspect` |
| CommitInspector.InspectBehaviour | lib/commands/start.js:56-95 | the branch query is issued, and the log query only when the branch query succeeded; the fallback record (`unknown` branch, hash and author, message `获取失败`, current time) is returned exactly when a query failed; otherwise the record is the parse of both outputs; no directory changes |
| CommitInspector.ParseCommit | lib/commands/start.js:62-75 | the branch is the trimmed first output; the hash is a `|`-free prefix of the trimmed log output, at most 8 long, and either 8 long, all of it, or followed by `|`; the date is taken from the output |
| CommitInspector.AbbreviateHash | lib/commands/start.js:73 | `substring(0, 8)`: a prefix of the hash whose length is min(8, hash length) |
| CommitInspector.ParsePieces | lib/commands/start.js:69-75 | for output that trims to `|`-free pieces joined by `|`: the hash is abbreviated from the first piece; subject, author and date are pieces 2 to 4, or undefined where absent |
| CommitInspector.ParseFormatted | lib/commands/start.js:65-75 | for `%H|%s|%an|%ad` output, whose fields hold no `|` and which may be surrounded by white space: the first 8 characters of the hash, and subject, author and date unchanged |
| CommitInspector.SubjectWithBar | lib/commands/start.js:69-75 | a subject containing `|` shifts the fields: the record has the subject's first half as message, its second half as author and the author as date |
| CommitInspector.ParseWithoutBar | lib/commands/start.js:69-76 | output without `|` leaves subject, author and date undefined |
| Text.Trim | lib/commands/start.js:62 | `trim` leaves no white space at either end and never lengthens the string |
| Text.TrimOf | lib/commands/start.js:69 | `trim` removes exactly the surrounding white space from a tight middle |
| Text.TrimTight | lib/commands/start.js:69 | a string with no white space at either end is left unchanged by `trim` |
| Text.Split | lib/commands/start.js:69 | `split` gives at least one piece; no piece holds the separator; the first piece is a prefix ending at the first separator or at the end |
| Text.JoinSplit | lib/commands/start.js:69 | joining the pieces of `split` with the separator gives back the input |
| Text.SplitJoin | lib/commands/start.js:69 | splitting separator-free pieces joined by the separator gives back the pieces |
| Config.FindConfig | lib/commands/start.js:138 | `find`: None exactly when no entry has the name, otherwise the first entry with that name |
| Config.FindDistinct | lib/commands/start.js:138 | when environment names are distinct, every entry is found by its own name |
| DeployProperties.DestinationChoice | lib/commands/start.js:224-225 | the destination is inside the publish checkout: under the override when it is a non-empty string, otherwise under the project default, and strictly below the checkout when either is non-empty |
| Pipeline.EnsureDir | lib/commands/start.js:154-157 | the directory exists afterwards, nothing else is created, and no command is issued |
| Shell.Join | lib/commands/start.js:224 | `path.join` extends the base, strictly when the sub-path is non-empty |
| Pipeline.StrictFailedLast | lib/commands/start.js:263-266 | a bare `execAsync` goes on exactly when the command succeeds; when it fails, that command is the last one issued and the run aborts with its failure |
| DeployProperties.PrepareTable | lib/commands/start.js:153-211 | the source steps equal their reference definition `PrepareCases`: mkdir, strict fetch, synchronization, install only without node_modules, strict build |
| DeployProperties.ReleaseTable | lib/commands/start.js:242-259 | steps 9 and 10 equal `ReleaseCases`: inspection, then strict add, commit and push |
| DeployProperties.PublishTable | lib/commands/start.js:212-259 | the publish steps equal `PublishCases`: an abort when the checkout is missing, otherwise synchronization, mkdir, strict copy, release |
| DeployProperties.RunTable | lib/commands/start.js:153-259 | a resolved run equals `RunCases`: the source steps, then the publish steps only when the source steps went on |
| DeployProperties.DeployTable | lib/commands/start.js:134-266 | a resolved request's report is the run's final world, with `Completed` when every step went on |
| DeployProperties.PrepareFinal | lib/commands/start.js:153-211 | the source steps create the checkout and issue exactly `PrepareCommands`; any stop is for the last command issued, which failed there |
| DeployProperties.PushFinal | lib/commands/start.js:247-259 | step 10 issues exactly `PushCommands`; it goes on exactly when add, commit and push all succeed, and then it has issued those three in that order; any stop is a strict failure of the last command issued |
| DeployProperties.ReleaseFinal | lib/commands/start.js:242-259 | steps 9 and 10 issue exactly `ReleaseCommands`; they go on exactly when add, commit and push all succeed, and then the commands are the inspector's queries followed by add, commit and push; any stop is a strict failure of the last command issued |
| DeployProperties.PublishFinal | lib/commands/start.js:212-259 | the publish steps issue exactly `PublishCommands` and create only the destination; a missing checkout is the reason they stop exactly when the checkout is absent; any other stop is for the last command issued |
| DeployProperties.PublishAfterCopy | lib/commands/start.js:233-259 | after a successful copy, the publish steps are the release on the world after the copy |
| DeployProperties.RunFinal | lib/commands/start.js:153-266 | a resolved run creates the source checkout, and the destination when the publish checkout exists; it issues the source commands, then the publish commands when the source steps went on; a missing checkout aborts exactly when the source steps went on and the directory is absent |
| DeployProperties.PrepareCommandsShape | lib/commands/start.js:153-199 | the source commands begin with the fetch, are only the fetch when it fails, all run in the source checkout, include no clone, and include npm install exactly when node_modules is absent once the fetch succeeded |
| DeployProperties.ReleaseCommandsShape | lib/commands/start.js:242-259 | steps 9 and 10 issue at least one command and no source-side command |
| DeployProperties.PublishCommandsShape | lib/commands/start.js:212-259 | the publish commands include no source-side command, and some command once the publish checkout exists |
| DeployProperties.ConfigErrorsIssueNothing | lib/commands/start.js:134-144 | the run aborts with `ProjectMissing` exactly when the project is absent, and returns `ConfigMissing` exactly when the project exists but the target record or environment entry is absent; in both cases the world is unchanged |
| DeployProperties.AbortIsFinal | lib/commands/start.js:263-266 | directories are only added and commands only appended; after a strict failure no command follows: the failed command is the last issued, and the oracle failed it there |
| DeployProperties.DeployIssued | lib/commands/start.js:117-267 | a resolved deployment issues the source commands, then the publish commands when the source steps went on |
| DeployProperties.NeverClones | lib/commands/start.js:153-174 | `git clone` is never issued |
| DeployProperties.FetchFirstAndStrict | lib/commands/start.js:170-174 | the first command is `git fetch --all` in the created checkout; when it fails, the run aborts right after it with nothing else issued |
| DeployProperties.InstallIffNoNodeModules | lib/commands/start.js:179-199 | once the fetch succeeded, npm install is issued exactly when node_modules did not exist |
| DeployProperties.TargetMissingAborts | lib/commands/start.js:212-216 | the run aborts for a missing publish checkout exactly when the source steps went on and that directory does not exist |
| DeployProperties.SourceFailuresStayInSource | lib/commands/start.js:201-216 | the run only adds directories and appends commands; after an abort for a missing publish checkout, or after any failed fetch, install or build, every issued command ran inside the source checkout |
| DeployProperties.PrepareWentOn | lib/commands/start.js:153-211 | source steps that went on issued the fetch first and the build last |
| DeployProperties.PublishWentOn | lib/commands/start.js:212-259 | publish steps that went on found their checkout, copied the build output, and ended with add, a commit carrying the `自动构建: ` prefix, and push |
| DeployProperties.CompletedConcat | lib/commands/start.js:201-259 | when the source commands end with the build and the publish commands went on, the whole trace has the completed shape |
| DeployProperties.RunWentOn | lib/commands/start.js:153-261 | a run that went on to the end created both directories and issued the source commands, then the publish commands, in the completed shape |
| DeployProperties.CompletedRun | lib/commands/start.js:223-261 | a completed deployment created the source checkout and the destination; it began with the fetch, built before copying, copied before releasing, and ended with add, a commit with the `自动构建: ` prefix, and push of the target branch in the publish checkout |
| DeployProperties.PrepareSucceeds | lib/commands/start.js:153-211 | when every command succeeds, the source steps issue fetch, synchronization, install when node_modules is absent, and the build |
| DeployProperties.SourceCommandsAgree | lib/commands/start.js:153-211 | when every command succeeds, the source steps issue exactly fetch, synchronization, install when node_modules is absent, and the build, whatever the commands print |
| DeployProperties.ReleaseTailAgrees | lib/commands/start.js:242-259 | when every command succeeds, steps 9 and 10 issue exactly both queries, add, the commit with the message from the parsed record, and push |
| DeployProperties.ReleaseSucceeds | lib/commands/start.js:242-259 | when every command succeeds, steps 9 and 10 issue both queries, add, a commit whose message is built from the parsed record, and push |
| DeployProperties.PublishCopies | lib/commands/start.js:218-240 | when every command succeeds and the publish checkout exists: synchronization, mkdir and copy, then the release |
| DeployProperties.RunSucceeds | lib/commands/start.js:153-259 | when every command succeeds, the run's exact final world |
| DeployProperties.DeploySucceeds | lib/commands/start.js:117-261 | when every command succeeds, the deployment's exact report |
| DeployProperties.HappyPath | lib/commands/start.js:117-261 | when every command succeeds and the publish checkout exists, the deployment completes; it creates exactly the source checkout and the destination, and issues exactly fetch, source synchronization, install when node_modules is absent, build, publish synchronization, copy, both queries, add, a commit with the prefix and the parsed subject, and push |
| DeployProperties.FormattedMessage | lib/commands/start.js:245 | for well-formed log output the commit message is `自动构建: ` followed by the subject |
| DeployProperties.UnparsedMessage | lib/commands/start.js:245 | the commit message is `自动构建: undefined` for log output without `|`, and `自动构建: 获取失败` after a failed lookup |
| Host.Host.MakeDirIfMissing | lib/commands/start.js:154-157 | the new state is `EnsureDir` of the old one |
| Host.Host.BuildSource | lib/commands/start.js:153-211 | steps 1 to 5 leave the state `PrepareSource` computes, and halt with its outcome exactly when it stops |
| Host.Host.Publish | lib/commands/start.js:212-259 | steps 6 to 10 leave the state `PublishTarget` computes, and halt with its outcome exactly when it stops |
| Host.Host.StartBuildProcess | lib/commands/start.js:117-267 | the final state and the outcome are exactly the report of `Pipeline.Deploy` on the initial state |

## Left out

- Logging: ANSI colours, console output and the `ora`/`chalk` spinner are presentation only, and no log line is modelled.
- Dates: formatting with `toLocaleString('zh-CN')` depends on the locale and the clock. A record's date is the text git printed (`CommitDate`) or the current time (`CurrentTime`).
- Real effects of commands: `exec`, `cp -r` and what git and npm do to the file trees are replaced by the oracle and the directory set. Running a command never creates or removes a directory.
- Because the repository state is not modelled, no claim is made about what synchronizing a checkout does to its files. The model records only which commands are issued.
- `mkdirSync` is assumed to succeed. Its `recursive` creation of missing ancestors is not modelled: only the named directory is added.
- Shell.Join: `path.join` does not normalise `.`, `..` or repeated separators here, so the `node_modules` path and the destination are compared as strings. An empty base also differs: `Join("", s)` is `"/" + s`, whereas `path.join("", s)` is `s`. That case only arises for an empty checkout path, which the model lets `mkdirSync` create.
- CommitInspector.AbbreviateHash, Text.Substring: Dafny's `string` counts Unicode scalar values, while JavaScript's `length` and `substring` count UTF-16 code units. The two differ only for characters outside the Basic Multilingual Plane: for a first log field of five such characters, `substring(0, 8)` keeps four and the model keeps all five. The same holds for the "at most 8" of `ParseCommit` and the "first 8 characters" of `ParseFormatted`. `%H` output is hexadecimal, and `trim` and `split('|')` agree with JavaScript, because every white-space character and `|` is a single code unit.
- Shell quoting and injection through paths, branch names and the commit message: commands are abstract values, not command lines.
- Configuration data: `config/const.js` reads JSON files at import time. Its data are given as a `Settings` value, with typed records. A non-string or missing field, including a missing `targetConfigs` list, is not modelled.
- bin/main.js (the interactive prompt) and lib/commands/download.js are not part of this model.
- `Host.Host.SafeGitOperation`, `SafeGitCheckout`, `GetLastCommitInfo`, `BuildSource`, `Publish` and `StartBuildProcess` are sequential. The `await` points, concurrency and timing are not modelled.
