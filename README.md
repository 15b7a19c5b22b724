# Aspire.PolyRepo repository provisioning, modelled in Dafny

Aspire.PolyRepo gives an Aspire host a local working copy of a git repository, or a git worktree of one. This model covers the decision logic that does this:

- **Builder** (`RepositoryConfigBuilder`). A fluent, mutable object with seven fields. `Build` refuses an empty URL. Otherwise it resolves the repository path as `Combine(GetFullPath(targetPath), projectName)` and supplies default collaborators for any that were not injected.
- **Reconciler** (`RepositoryConfigExtensions`). It asks the filesystem one existence question. From the answer it issues exactly one of clone, create-worktree or pull-and-reset to the command executor, or issues nothing. `InitializeRepository` creates the builder, sets the URL, runs the caller's configuration, builds, and reconciles.
- **Project name and the older `AddGitProject` flow** (`Aspire.Git`). The project name is derived from a URL by stripping one trailing `.git` and keeping the last `/`-segment. `AddGitProject` takes the explicit name over the derived one. It clones only when the directory is missing. It then looks for the project file on the disk as the clone left it, and fails when the file is missing.

Modules, one per source file or collaborator:

- `Wrappers`: `Option` (nullable values) and `Result` (exceptions).
- `Paths`: `PathOps`, the host's `GetFullPath`, `Combine` and `Join`. These are passed in as uninterpreted functions.
- `Interfaces`: the collaborators.
  - `FileSystem` is a filesystem oracle over a `Disk` value. It records every probe.
  - `CommandExecutor` is the executor. Its state is the history of `Command`s it was asked to perform.
- `GitUrl`: project-name derivation. It includes an independent characterisation of the result (`IsFinalSegment`), which is proved equal to the split-based code.
- `RepositoryConfigs`: the immutable `RepositoryConfig` record.
- `ConfigBuilder`: the builder class.
  - `State()` gives its seven fields as a value.
  - `Step` and `Configure` are the pure meaning of one setter call and of a sequence of calls.
- `Reconciler`: the pure decision functions and the effectful methods proved against them.
  - `CloneCommands`, `WorktreeCommands` and `SetupCommands` are the decision functions.
  - `CloneRepository`, `SetupWorktree`, `SetupRepository` and `InitializeRepository` are the methods.
- `AspireGit`: `AddGitProject` and the `git clone` process it starts. What a finished clone leaves on the disk is a parameter (`GitProcesses.cloned`), because it depends on the remote.
- `Scenarios`: the repository's unit-test setups, replayed through the contracts.

How the model represents things the code does differently:

- The caller's `Action<RepositoryConfigBuilder>` is modelled as the sequence of setter calls it makes (`BuilderCall`). `InitializeRepository` applies them in order.
- An empty worktree path counts as no worktree. The code tests `string.IsNullOrEmpty`, so an empty path takes the clone branch.
- `CreateWorktree` receives `config.Branch`, as the code says. The worktree test at `GitRepositoryConfigExtensionsTests.cs:90` expects `"develop"`, but its builder never sets a branch. `Scenarios.WorktreeWhenAbsent` shows that the code passes an absent branch.
- The builder calls `GitUrlUtilities.GetProjectNameFromGitUrl` (`RepositoryConfigBuilder.cs:22`). That utility is not part of this model. It is modelled by the visible `GetProjectNameFromGitUrl` of `Aspire.Git`, which agrees with the test at line 66.

## Model

| member | source | states |
|---|---|---|
| `GitUrl.StripRemovesOneSuffix` | src/Aspire.Git/ProjectResourceBuilderExtensions.cs:54-57 | when the URL ends in `.git`, exactly that one suffix is removed and everything before it is kept; otherwise the URL is unchanged |
| `GitUrl.Split` | src/Aspire.Git/ProjectResourceBuilderExtensions.cs:59 | `Split('/')` yields at least one piece, no piece contains the separator, and joining the pieces with the separator gives back the input |
| `GitUrl.LastSegmentIsFinalSegment` | src/Aspire.Git/ProjectResourceBuilderExtensions.cs:59 | the last piece of the split is a suffix of the input with no `/`, and it is either the whole input or preceded by a `/` |
| `GitUrl.FinalSegmentUnique` | src/Aspire.Git/ProjectResourceBuilderExtensions.cs:59 | at most one string fits that description, so `[^1]` is determined by it |
| `GitUrl.ProjectNameIsFinalSegment` | src/Aspire.Git/ProjectResourceBuilderExtensions.cs:52-60 | the project name never contains `/` and is the final segment of the URL after `.git` is stripped |
| `GitUrl.LastSegmentAfterSlash` | src/Aspire.Git/ProjectResourceBuilderExtensions.cs:59 | the final segment of `p + "/" + q`, for `q` without `/`, is `q` |
| `GitUrl.LastSegmentWithoutSlash` | src/Aspire.Git/ProjectResourceBuilderExtensions.cs:59 | a string without `/` is its own final segment |
| `GitUrl.RemovesOnlyOneGitSuffix` | src/Aspire.Git/ProjectResourceBuilderExtensions.cs:54-59 | `prefix/name.git.git` names the project `name.git`: only one suffix is stripped |
| `GitUrl.TrailingSlashGivesEmptyName` | src/Aspire.Git/ProjectResourceBuilderExtensions.cs:59 | a URL ending in `/` names the project `""` |
| `GitUrl.ProjectNameIgnoresGitSuffix` | src/Aspire.Git/ProjectResourceBuilderExtensions.cs:54-59 | for a URL not ending in `.git`, appending `.git` does not change the project name |
| `GitUrl.ProjectNameOfRepositoryUrl` | src/Aspire.Git/ProjectResourceBuilderExtensions.cs:54-59 | `prefix/repo` and `prefix/repo.git` both name the project `repo` |
| `GitUrl.TestUrlProjectName` | src/Dutchskull.Aspire.PolyRepo.Tests.Unit/GitRepositoryConfigExtensionsTests.cs:66 | `https://github.com/example/repo.git` names the project `repo` |
| `GitUrl.HostUrlProjectNames` | src/Aspire.Git/ProjectResourceBuilderExtensions.cs:52-60 | `https://host/org/repo.git` and `https://host/org/repo` both name the project `repo` |
| `GitUrl.DoubleSuffixExample` | src/Aspire.Git/ProjectResourceBuilderExtensions.cs:52-60 | `a/b.git.git` names the project `b.git` |
| `GitUrl.BareNameExample` | src/Aspire.Git/ProjectResourceBuilderExtensions.cs:52-60 | `repo.git`, which has no `/`, names the project `repo` |
| `Interfaces.FileSystem.constructor` | src/Dutchskull.Aspire.PolyRepo/RepositoryConfigBuilder.cs:32 | the default filesystem observes the given disk and has answered no probes yet |
| `Interfaces.FileSystem.DirectoryExists` | src/Aspire.Git/IFileSystem.cs:5 | answers whether the path is a directory on the disk; only the probe record changes, never the disk |
| `Interfaces.FileSystem.FileExists` | src/Aspire.Git/IFileSystem.cs:7 | answers whether the path is a file on the disk; only the probe record changes, never the disk |
| `Interfaces.CommandExecutor.constructor` | src/Dutchskull.Aspire.PolyRepo/RepositoryConfigBuilder.cs:31 | the default executor starts with no commands performed |
| `Interfaces.CommandExecutor.CloneGitRepository` | src/Dutchskull.Aspire.PolyRepo/ProcessCommandExecutor.cs:26-27 | exactly one clone, of this URL into this path on this branch, is added to the executor's history |
| `Interfaces.CommandExecutor.CreateWorktree` | src/Dutchskull.Aspire.PolyRepo/RepositoryConfigExtensions.cs:60-64 | exactly one worktree creation with these arguments is added to the executor's history |
| `Interfaces.CommandExecutor.PullAndResetRepository` | src/Dutchskull.Aspire.PolyRepo/ProcessCommandExecutor.cs:32-50 | exactly one pull-and-reset of this path is added to the executor's history |
| `ConfigBuilder.Step` | src/Dutchskull.Aspire.PolyRepo/RepositoryConfigBuilder.cs:37-84 | each setter writes its own field with its argument (`KeepUpToDate` writes `true`) and leaves the other six fields alone |
| `ConfigBuilder.RepositoryConfigBuilder.constructor` | src/Dutchskull.Aspire.PolyRepo/RepositoryConfigBuilder.cs:7-13 | a fresh builder has URL `""`, target path `"."`, keep-up-to-date off, and no branch, worktree or collaborators |
| `ConfigBuilder.RepositoryConfigBuilder.Build` | src/Dutchskull.Aspire.PolyRepo/RepositoryConfigBuilder.cs:15-35 | fails with `NoRepositoryUrl` exactly when the URL is empty, and then creates nothing. Otherwise the config copies URL, branch, flag and worktree, and its path is `Combine(GetFullPath(targetPath), ProjectName(url))`. Injected collaborators are kept; defaults are fresh only when none was injected. The builder is not modified |
| `ConfigBuilder.RepositoryConfigBuilder.WithTargetPath` | src/Dutchskull.Aspire.PolyRepo/RepositoryConfigBuilder.cs:37-42 | returns the same builder; its fields become `Step` of the old ones with this call |
| `ConfigBuilder.RepositoryConfigBuilder.WithDefaultBranch` | src/Dutchskull.Aspire.PolyRepo/RepositoryConfigBuilder.cs:44-49 | returns the same builder; its fields become `Step` of the old ones with this call |
| `ConfigBuilder.RepositoryConfigBuilder.KeepUpToDate` | src/Dutchskull.Aspire.PolyRepo/RepositoryConfigBuilder.cs:51-56 | returns the same builder; its fields become `Step` of the old ones with this call |
| `ConfigBuilder.RepositoryConfigBuilder.WithWorktree` | src/Dutchskull.Aspire.PolyRepo/RepositoryConfigBuilder.cs:58-63 | returns the same builder; its fields become `Step` of the old ones with this call |
| `ConfigBuilder.RepositoryConfigBuilder.WithFileSystem` | src/Dutchskull.Aspire.PolyRepo/RepositoryConfigBuilder.cs:65-70 | returns the same builder; its fields become `Step` of the old ones with this call |
| `ConfigBuilder.RepositoryConfigBuilder.WithGitUrl` | src/Dutchskull.Aspire.PolyRepo/RepositoryConfigBuilder.cs:72-77 | returns the same builder; its fields become `Step` of the old ones with this call |
| `ConfigBuilder.RepositoryConfigBuilder.WithProcessCommandExecutor` | src/Dutchskull.Aspire.PolyRepo/RepositoryConfigBuilder.cs:79-84 | returns the same builder; its fields become `Step` of the old ones with this call |
| `ConfigBuilder.LastWriteWins` | src/Dutchskull.Aspire.PolyRepo/RepositoryConfigBuilder.cs:37-84 | once a setter is called again, its earlier call can be dropped whatever came between: last write wins |
| `ConfigBuilder.LastWriteDecides` | src/Dutchskull.Aspire.PolyRepo/RepositoryConfigBuilder.cs:37-84 | after any sequence of setter calls, each field holds the value of the last call that writes it |
| `ConfigBuilder.UnwrittenFieldKeepsValue` | src/Dutchskull.Aspire.PolyRepo/RepositoryConfigBuilder.cs:7-13 | a field that no call writes keeps the value it started with, so its default survives |
| `ConfigBuilder.KeepUpToDateIsSticky` | src/Dutchskull.Aspire.PolyRepo/RepositoryConfigBuilder.cs:51-56 | after any calls the flag is on iff it was on before or `KeepUpToDate()` was among them: nothing turns it off |
| `ConfigBuilder.KeepUpToDateIdempotent` | src/Dutchskull.Aspire.PolyRepo/RepositoryConfigBuilder.cs:51-56 | calling `KeepUpToDate()` twice is calling it once, and the flag is then on |
| `ConfigBuilder.RepositoryPathIgnoresGitSuffix` | src/Dutchskull.Aspire.PolyRepo/RepositoryConfigBuilder.cs:22-23 | the resolved repository path is the same for `url` and `url.git` |
| `ConfigBuilder.CollaboratorsComeFromCalls` | src/Dutchskull.Aspire.PolyRepo/RepositoryConfigBuilder.cs:65-84 | a collaborator the builder holds after the calls was there at the start or was injected by one of the calls |
| `Reconciler.CloneCommands` | src/Dutchskull.Aspire.PolyRepo/RepositoryConfigExtensions.cs:20-42 | at most one command, aimed at the repository path and never a worktree. It is a clone of `(GitUrl, RepositoryPath, Branch)` iff the directory is missing. There is nothing iff the directory exists and keep-up-to-date is off |
| `Reconciler.WorktreeCommands` | src/Dutchskull.Aspire.PolyRepo/RepositoryConfigExtensions.cs:54-76 | at most one command, aimed at the worktree path and never a clone. It is `CreateWorktree(RepositoryPath, WorktreePath, Branch)` iff the worktree is missing. There is nothing iff the worktree exists and keep-up-to-date is off |
| `Reconciler.SetupCommands` | src/Dutchskull.Aspire.PolyRepo/RepositoryConfigExtensions.cs:44-52 | at most one command, aimed at the probed directory. It creates iff that directory is missing. There is nothing iff it exists and keep-up-to-date is off. A clone happens only when no non-empty worktree path is set |
| `Reconciler.SetupConverges` | src/Dutchskull.Aspire.PolyRepo/RepositoryConfigExtensions.cs:20-76 | once the commands succeed, the probed directory exists. A second round creates nothing, and without keep-up-to-date it issues nothing |
| `Reconciler.CloneRepository` | src/Dutchskull.Aspire.PolyRepo/RepositoryConfigExtensions.cs:20-42 | probes only the repository directory, once. The executor's history grows by exactly `CloneCommands` of that answer. The config comes back unchanged |
| `Reconciler.SetupWorktree` | src/Dutchskull.Aspire.PolyRepo/RepositoryConfigExtensions.cs:54-76 | probes only the worktree directory, once, never the repository path. The history grows by exactly `WorktreeCommands` of that answer. The config comes back unchanged |
| `Reconciler.SetupRepository` | src/Dutchskull.Aspire.PolyRepo/RepositoryConfigExtensions.cs:44-52 | one probe, of the worktree path if it is non-empty and of the repository path otherwise. The history grows by exactly `SetupCommands`. The config comes back unchanged |
| `Reconciler.Invoke` | src/Dutchskull.Aspire.PolyRepo/RepositoryConfigExtensions.cs:13 | one setter call of the caller's action changes the builder's fields as `Step` says |
| `Reconciler.NewConfiguredBuilder` | src/Dutchskull.Aspire.PolyRepo/RepositoryConfigExtensions.cs:9-13 | a new builder ends up with the fields `Configure` gives for the URL followed by the action's calls |
| `Reconciler.InitializeRepository` | src/Dutchskull.Aspire.PolyRepo/RepositoryConfigExtensions.cs:5-18 | fails with `NoRepositoryUrl` iff the configured URL is empty, and then no collaborator changes. Otherwise the config is what `Build` makes of URL-then-action. Only the injected collaborators' probe and command records may change; the disk never does. The config's filesystem gets exactly one more probe, and its executor's history grows by exactly `SetupCommands` of the disk it started with. Collaborators that were injected and then replaced are left untouched |
| `AspireGit.GitProcesses.constructor` | src/Aspire.Git/ProjectResourceBuilderExtensions.cs:37-50 | no process has been started yet, and the clone outcome is the given one |
| `AspireGit.GitProcesses.CloneGitRepository` | src/Aspire.Git/ProjectResourceBuilderExtensions.cs:37-50 | exactly one `git clone url path` process is started and runs to exit. The disk becomes whatever the clone leaves, and the exit code is not looked at |
| `AspireGit.ExplicitNameOverrides` | src/Aspire.Git/ProjectResourceBuilderExtensions.cs:14-17 | an explicit name is the registered name and decides the repository directory; the URL then makes no difference |
| `AspireGit.SameRepositoryPathAsBuilder` | src/Aspire.Git/ProjectResourceBuilderExtensions.cs:14-17 | without an explicit name, this flow resolves the same repository directory as the builder |
| `AspireGit.AddGitProject` | src/Aspire.Git/ProjectResourceBuilderExtensions.cs:7-35 | probes the repository directory, then the project file, in that order. It clones iff the directory was missing beforehand; there is no update path. The disk afterwards is the clone's result, or unchanged when no clone ran. It registers `(name, projectPath)` iff the project file exists on that later disk, and otherwise fails with "Project folder … not found" |
| `Scenarios.TestRepositoryPath` | src/Dutchskull.Aspire.PolyRepo.Tests.Unit/GitRepositoryConfigExtensionsTests.cs:66 | the test URL and `/custom/path` resolve to `Combine(GetFullPath("/custom/path"), "repo")` |
| `Scenarios.TestConfig` | src/Dutchskull.Aspire.PolyRepo.Tests.Unit/GitRepositoryConfigExtensionsTests.cs:15-28 | the tests' builder yields the test URL, no branch, no worktree, keep-up-to-date off, that path, and the injected collaborators |
| `Scenarios.CloneWhenAbsent` | src/Dutchskull.Aspire.PolyRepo.Tests.Unit/GitRepositoryConfigExtensionsTests.cs:20-42 | with the directory missing, the executor receives exactly one clone, of the test URL into `/custom/path/repo` |
| `Scenarios.NothingWhenPresent` | src/Dutchskull.Aspire.PolyRepo.Tests.Unit/GitRepositoryConfigExtensionsTests.cs:20-42 | with the directory present and keep-up-to-date off, the executor receives nothing |
| `Scenarios.WorktreeTestConfig` | src/Dutchskull.Aspire.PolyRepo.Tests.Unit/GitRepositoryConfigExtensionsTests.cs:15-18 | the worktree tests' builder (the shared builder, then target path, worktree, optional keep-up-to-date and the test's own collaborators) yields the test URL, no branch, that worktree, that flag, the resolved path, and the test's collaborators rather than the shared placeholders |
| `Scenarios.WorktreeWhenAbsent` | src/Dutchskull.Aspire.PolyRepo.Tests.Unit/GitRepositoryConfigExtensionsTests.cs:72-91 | with the worktree missing, the executor receives exactly one worktree creation from the repository path; the branch passed on is the config's, here absent |
| `Scenarios.PullWorktreeWhenPresent` | src/Dutchskull.Aspire.PolyRepo.Tests.Unit/GitRepositoryConfigExtensionsTests.cs:94-114 | with the worktree present and keep-up-to-date on, the only probe is of the worktree, and the only command is one pull-and-reset of the worktree |
| `Scenarios.TestActionFields` | src/Dutchskull.Aspire.PolyRepo.Tests.Unit/GitRepositoryConfigExtensionsTests.cs:54-58 | the URL followed by the test's action sets URL, target path, branch and both collaborators; keep-up-to-date stays off and no worktree is set |
| `Scenarios.InitializeWithInjectedCollaborators` | src/Dutchskull.Aspire.PolyRepo.Tests.Unit/GitRepositoryConfigExtensionsTests.cs:45-69 | `InitializeRepository` returns the URL, the configured branch, the resolved path and the very collaborators injected |
| `Scenarios.EmptyUrlIsRefused` | src/Dutchskull.Aspire.PolyRepo/RepositoryConfigBuilder.cs:15-20 | an empty URL fails with `NoRepositoryUrl`, and neither the filesystem nor the executor is asked anything |
| `Scenarios.InitializeClonesOnEmptyDisk` | src/Dutchskull.Aspire.PolyRepo/RepositoryConfigExtensions.cs:5-42 | with the test's action and an injected filesystem over an empty disk, that disk is untouched. The filesystem is asked once about `/custom/path/repo`, and the executor receives exactly one clone of the test URL on branch `develop` |
| `Scenarios.FirstRunClonesAndRegisters` | src/Aspire.Git/ProjectResourceBuilderExtensions.cs:7-35 | on an empty disk whose clone brings the project file, one clone is started and the project is registered as `repo` |
| `Scenarios.ExistingRepositoryWithoutProject` | src/Aspire.Git/ProjectResourceBuilderExtensions.cs:19-31 | when the repository directory exists but the project file does not, nothing is cloned and the call fails with "not found" |
| `GitUrl.StripGitSuffix` | src/Aspire.Git/ProjectResourceBuilderExtensions.cs:54-57 | the `.git` strip as a function; what it promises is proved in `GitUrl.StripRemovesOneSuffix` |
| `GitUrl.LastSegment` | src/Aspire.Git/ProjectResourceBuilderExtensions.cs:59 | `Split('/')[^1]` as a function; shown equal to the independent final-segment description by `GitUrl.LastSegmentIsFinalSegment` and `GitUrl.FinalSegmentUnique` |
| `GitUrl.ProjectNameFromGitUrl` | src/Aspire.Git/ProjectResourceBuilderExtensions.cs:52-60 | the project name as a function; its properties are the `GitUrl` lemmas above, chiefly `GitUrl.ProjectNameIsFinalSegment` |
| `ConfigBuilder.Configure` | src/Dutchskull.Aspire.PolyRepo/RepositoryConfigExtensions.cs:9-13 | the fields after setter calls in order; characterised by `ConfigBuilder.LastWriteDecides` and `ConfigBuilder.UnwrittenFieldKeepsValue` |
| `ConfigBuilder.RepositoryPath` | src/Dutchskull.Aspire.PolyRepo/RepositoryConfigBuilder.cs:22-23 | `Combine(GetFullPath(targetPath), projectName)`; see `ConfigBuilder.RepositoryPathIgnoresGitSuffix` |
| `Reconciler.Configured` | src/Dutchskull.Aspire.PolyRepo/RepositoryConfigExtensions.cs:9-13 | the builder's fields after the URL and then the caller's action; `Reconciler.NewConfiguredBuilder` is proved to reach them |
| `AspireGit.ProjectName` | src/Aspire.Git/ProjectResourceBuilderExtensions.cs:14-15 | `name ?? GetProjectNameFromGitUrl(gitUrl)`; see `AspireGit.ExplicitNameOverrides` |
| `AspireGit.ResolvedRepositoryPath` | src/Aspire.Git/ProjectResourceBuilderExtensions.cs:17 | `Combine(GetFullPath(repositoryPath), projectName)`; see `AspireGit.SameRepositoryPathAsBuilder` |
| `AspireGit.ResolvedProjectPath` | src/Aspire.Git/ProjectResourceBuilderExtensions.cs:25 | `Join(resolvedRepositoryPath, relativeProjectPath)`, the path `AddGitProject` probes, registers or reports |
| `AspireGit.ProjectError.Message` | src/Aspire.Git/ProjectResourceBuilderExtensions.cs:30 | the text of the failure: `Project folder {path} not found` |

## Left out

- `ProcessCommandExecutor` is modelled only as the history of commands it receives. It uses LibGit2Sharp to clone, fetch and hard-reset, and it spawns processes with line-by-line logging. `BuildDotNetProject` and `NpmInstall` are not used by the reconciler.
- `Interfaces.CommandExecutor.PullAndResetRepository`: the executor's own failure when the repository has no remote or no tracked branch (`ProcessCommandExecutor.cs:39-40`) is not modelled. The call is recorded and nothing more.
- The reconciler's executor commands do not change the modelled `Disk`: the reconciler never looks at the disk again after its one probe. `Reconciler.SetupConverges` rests on this model's own assumption, not on anything the executor's code promises, that a successful clone or new worktree leaves its directory in place.
- `Path.GetFullPath`, `Path.Combine` and `Path.Join` stay uninterpreted functions (`PathOps`). Normalisation, rooted-path override and separators belong to the operating system.
- `ConfigBuilder.RepositoryConfigBuilder.Build` does not model a `null` URL. The setters take non-nullable strings, so only the empty string is refused. Default collaborators are a fresh `FileSystem` over the disk passed in and a fresh executor with an empty history. The real defaults' logger and disk access are not modelled.
- `GitUrl.StripRemovesOneSuffix` compares `.git` character by character. `string.EndsWith(string)` in .NET compares culturally, and that comparison is not modelled.
- `AspireGit.GitProcesses.CloneGitRepository` records the URL and path as a pair, and its effect on the disk is the given `cloned` function. The unquoted `git clone {url} {path}` command line and process start-up are not modelled. A failed clone is covered only as a `cloned` function that leaves the project file absent.
- `AspireGit.AddGitProject` returns the registration as a value. `IDistributedApplicationBuilder.AddProject` and the rest of the host framework are not modelled. The optional parameters' defaults (`null`, `"."`, `"."`) are passed explicitly by the caller.
- The caller's configuration action is modelled as the setter calls it makes. Any other code in the action is not modelled.
- `FileOrDirectoryExists`, used by the test at `GitRepositoryConfigExtensionsTests.cs:51`, is not in the shown `IFileSystem` and is not modelled.
- Concurrency, exceptions raised by the filesystem itself, and hung processes are not modelled.
