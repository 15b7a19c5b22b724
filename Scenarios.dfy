/**
 * The unit tests' scenarios, replayed through the model: what a caller can
 * conclude about the executor's calls from the contracts alone.
 */
module Scenarios {
  import opened Wrappers
  import opened Paths
  import opened Interfaces
  import opened RepositoryConfigs
  import opened ConfigBuilder
  import opened Reconciler
  import GitUrl
  import AspireGit

  const TestGitUrl: string := "https://github.com/example/repo.git"
  const CloneTargetPath: string := "/custom/path"
  const TestBranch: string := "develop"
  const TestWorktreePath: string := "/custom/worktree/path"

  /** The test URL and target path resolve to `repo` under the full target path. */
  lemma TestRepositoryPath(paths: PathOps)
    ensures RepositoryPath(paths, CloneTargetPath, TestGitUrl) == paths.combine(paths.getFullPath(CloneTargetPath), "repo")
  {
    GitUrl.TestUrlProjectName();
  }

  /** The test builder: URL and both collaborators injected, then the target path. */
  method TestConfig(paths: PathOps, fs: FileSystem, executor: CommandExecutor) returns (config: RepositoryConfig)
    ensures config.gitUrl == TestGitUrl && config.branch == None && !config.keepUpToDate && config.worktreePath == None
    ensures config.repositoryPath == paths.combine(paths.getFullPath(CloneTargetPath), "repo")
    ensures config.fileSystem == fs && config.processCommandsExecutor == executor
  {
    var builder := new RepositoryConfigBuilder();
    builder := builder.WithGitUrl(TestGitUrl);
    assert builder.State() == Defaults.(gitUrl := TestGitUrl);
    builder := builder.WithFileSystem(fs);
    assert builder.State() == Defaults.(gitUrl := TestGitUrl, fileSystem := fs);
    builder := builder.WithProcessCommandExecutor(executor);
    assert builder.State() == Defaults.(gitUrl := TestGitUrl, fileSystem := fs, processCommandsExecutor := executor);
    builder := builder.WithTargetPath(CloneTargetPath);
    assert builder.State() == Defaults.(gitUrl := TestGitUrl, fileSystem := fs, processCommandsExecutor := executor,
                                        targetPath := CloneTargetPath);
    var built := builder.Build(paths, Disk({}, {}));
    config := built.value;
    TestRepositoryPath(paths);
  }

  /** Repository directory absent: exactly one clone, of the test URL into `/custom/path/repo`. */
  method CloneWhenAbsent(paths: PathOps) returns (calls: seq<Command>)
    ensures calls == [Clone(TestGitUrl, paths.combine(paths.getFullPath(CloneTargetPath), "repo"), None)]
  {
    var fs := new FileSystem(Disk({}, {}));
    var executor := new CommandExecutor();
    var config := TestConfig(paths, fs, executor);
    config := CloneRepository(config);
    calls := executor.calls;
  }

  /** Repository directory present, keep-up-to-date off: no executor call at all. */
  method NothingWhenPresent(paths: PathOps) returns (calls: seq<Command>)
    ensures calls == []
  {
    var repositoryPath := paths.combine(paths.getFullPath(CloneTargetPath), "repo");
    var fs := new FileSystem(Disk({repositoryPath}, {}));
    var executor := new CommandExecutor();
    var config := TestConfig(paths, fs, executor);
    config := CloneRepository(config);
    calls := executor.calls;
  }

  /**
   * The worktree tests' builder: the shared builder (URL and two placeholder
   * collaborators), then target path, worktree, optionally keep-up-to-date,
   * and the test's own collaborators, which replace the placeholders.
   */
  method WorktreeTestConfig(paths: PathOps, keepUpToDate: bool, fs: FileSystem, executor: CommandExecutor)
    returns (config: RepositoryConfig)
    ensures config.gitUrl == TestGitUrl && config.branch == None && config.keepUpToDate == keepUpToDate
    ensures config.worktreePath == Some(TestWorktreePath)
    ensures config.repositoryPath == paths.combine(paths.getFullPath(CloneTargetPath), "repo")
    ensures config.fileSystem == fs && config.processCommandsExecutor == executor
  {
    var placeholderFileSystem := new FileSystem(Disk({}, {}));
    var placeholderExecutor := new CommandExecutor();
    var builder := new RepositoryConfigBuilder();
    builder := builder.WithGitUrl(TestGitUrl);
    builder := builder.WithFileSystem(placeholderFileSystem);
    builder := builder.WithProcessCommandExecutor(placeholderExecutor);
    assert builder.State() == Defaults.(gitUrl := TestGitUrl, fileSystem := placeholderFileSystem,
                                        processCommandsExecutor := placeholderExecutor);
    builder := builder.WithTargetPath(CloneTargetPath);
    builder := builder.WithWorktree(TestWorktreePath);
    if keepUpToDate {
      builder := builder.KeepUpToDate();
    }
    assert builder.State() == Defaults.(gitUrl := TestGitUrl, fileSystem := placeholderFileSystem,
                                        processCommandsExecutor := placeholderExecutor, targetPath := CloneTargetPath,
                                        worktreePath := Some(TestWorktreePath), keepUpToDate := keepUpToDate);
    builder := builder.WithFileSystem(fs);
    builder := builder.WithProcessCommandExecutor(executor);
    assert builder.State() == Defaults.(gitUrl := TestGitUrl, fileSystem := fs, processCommandsExecutor := executor,
                                        targetPath := CloneTargetPath, worktreePath := Some(TestWorktreePath),
                                        keepUpToDate := keepUpToDate);
    var built := builder.Build(paths, Disk({}, {}));
    config := built.value;
    TestRepositoryPath(paths);
  }

  /**
   * Worktree absent: one worktree creation from the repository path. No
   * branch was configured, so the branch passed on is absent.
   */
  method WorktreeWhenAbsent(paths: PathOps) returns (calls: seq<Command>)
    ensures calls == [AddWorktree(paths.combine(paths.getFullPath(CloneTargetPath), "repo"), TestWorktreePath, None)]
  {
    var fs := new FileSystem(Disk({}, {}));
    var executor := new CommandExecutor();
    var config := WorktreeTestConfig(paths, false, fs, executor);
    config := SetupWorktree(config);
    calls := executor.calls;
  }

  /** Worktree present, keep-up-to-date on: one pull-and-reset, of the worktree and not of the repository. */
  method PullWorktreeWhenPresent(paths: PathOps) returns (calls: seq<Command>, probes: seq<Probe>)
    ensures calls == [PullAndReset(TestWorktreePath)]
    ensures probes == [DirectoryProbe(TestWorktreePath)]
  {
    var fs := new FileSystem(Disk({TestWorktreePath}, {}));
    var executor := new CommandExecutor();
    var config := WorktreeTestConfig(paths, true, fs, executor);
    config := SetupWorktree(config);
    calls, probes := executor.calls, fs.probes;
  }

  /** The configuration action of the initialisation test: target path, branch and both collaborators. */
  function TestAction(fs: FileSystem, executor: CommandExecutor): seq<BuilderCall> {
    [BuilderCall.WithTargetPath(CloneTargetPath),
     BuilderCall.WithDefaultBranch(TestBranch),
     BuilderCall.WithFileSystem(fs),
     BuilderCall.WithProcessCommandExecutor(executor)]
  }

  /** The URL followed by the test's action sets five fields and leaves keep-up-to-date and the worktree alone. */
  lemma TestActionFields(fs: FileSystem, executor: CommandExecutor)
    ensures Configured(TestGitUrl, TestAction(fs, executor))
         == Defaults.(gitUrl := TestGitUrl, targetPath := CloneTargetPath, branch := Some(TestBranch),
                      fileSystem := fs, processCommandsExecutor := executor)
  {
    var all := [BuilderCall.WithGitUrl(TestGitUrl)] + TestAction(fs, executor);
    assert all[..1][..0] == [];
    assert Configure(Defaults, all[..1]) == Defaults.(gitUrl := TestGitUrl);
    assert all[..2][..1] == all[..1];
    assert Configure(Defaults, all[..2]) == Defaults.(gitUrl := TestGitUrl, targetPath := CloneTargetPath);
    assert all[..3][..2] == all[..2];
    assert Configure(Defaults, all[..3])
        == Defaults.(gitUrl := TestGitUrl, targetPath := CloneTargetPath, branch := Some(TestBranch));
    assert all[..4][..3] == all[..3];
    assert Configure(Defaults, all[..4])
        == Defaults.(gitUrl := TestGitUrl, targetPath := CloneTargetPath, branch := Some(TestBranch), fileSystem := fs);
    assert all[..5][..4] == all[..4];
    assert all[..5] == all;
  }

  /** `InitializeRepository` with the test's action: URL, branch and injected collaborators come through. */
  method InitializeWithInjectedCollaborators(paths: PathOps) returns (config: RepositoryConfig, fs: FileSystem, executor: CommandExecutor)
    ensures config.gitUrl == TestGitUrl
    ensures config.branch == Some(TestBranch)
    ensures config.repositoryPath == paths.combine(paths.getFullPath(CloneTargetPath), "repo")
    ensures config.fileSystem == fs && config.processCommandsExecutor == executor
  {
    fs := new FileSystem(Disk({}, {}));
    executor := new CommandExecutor();
    var configure := TestAction(fs, executor);
    assert fs in InjectedFileSystems(configure) by { assert configure[2] in configure; }
    assert executor in InjectedExecutors(configure) by { assert configure[3] in configure; }
    TestActionFields(fs, executor);
    var r := InitializeRepository(configure, TestGitUrl, paths, Disk({}, {}));
    config := r.value;
    TestRepositoryPath(paths);
  }

  /**
   * The same initialisation over an empty injected disk: the injected
   * filesystem is asked once about the repository directory, its disk is
   * untouched, and the injected executor receives exactly one clone.
   */
  method InitializeClonesOnEmptyDisk(paths: PathOps) returns (fs: FileSystem, executor: CommandExecutor)
    ensures fs.disk == Disk({}, {})
    ensures fs.probes == [DirectoryProbe(paths.combine(paths.getFullPath(CloneTargetPath), "repo"))]
    ensures executor.calls == [Clone(TestGitUrl, paths.combine(paths.getFullPath(CloneTargetPath), "repo"), Some(TestBranch))]
  {
    fs := new FileSystem(Disk({}, {}));
    executor := new CommandExecutor();
    var configure := TestAction(fs, executor);
    assert fs in InjectedFileSystems(configure) by { assert configure[2] in configure; }
    assert executor in InjectedExecutors(configure) by { assert configure[3] in configure; }
    TestActionFields(fs, executor);
    var r := InitializeRepository(configure, TestGitUrl, paths, Disk({}, {}));
    TestRepositoryPath(paths);
    assert r.value.ProbedPath() == r.value.repositoryPath;
  }

  /** An empty URL is refused, and neither collaborator is asked anything. */
  method EmptyUrlIsRefused(paths: PathOps) returns (r: Result<RepositoryConfig, ConfigError>, calls: seq<Command>, probes: seq<Probe>)
    ensures r == Failure(NoRepositoryUrl)
    ensures calls == [] && probes == []
  {
    var fs := new FileSystem(Disk({}, {}));
    var executor := new CommandExecutor();
    var configure := [BuilderCall.WithFileSystem(fs), BuilderCall.WithProcessCommandExecutor(executor)];
    assert fs in InjectedFileSystems(configure) by { assert configure[0] in configure; }
    assert executor in InjectedExecutors(configure) by { assert configure[1] in configure; }
    LastWriteDecides(Defaults, [BuilderCall.WithGitUrl("")] + configure, 0);
    r := InitializeRepository(configure, "", paths, Disk({}, {}));
    calls, probes := executor.calls, fs.probes;
  }

  const HostGitUrl: string := "https://host/org/repo.git"
  const ProjectFile: string := "src/App.csproj"

  /**
   * First run of `AddGitProject` on an empty disk, where the clone brings
   * the repository and its project file: one clone, then the project is
   * registered under the name `repo`.
   */
  method FirstRunClonesAndRegisters(paths: PathOps)
    returns (r: Wrappers.Result<AspireGit.ProjectRegistration, AspireGit.ProjectError>, started: seq<AspireGit.GitClone>)
    ensures started == [AspireGit.GitClone(HostGitUrl, paths.combine(paths.getFullPath("."), "repo"))]
    ensures r == Success(AspireGit.ProjectRegistration("repo", paths.join(paths.combine(paths.getFullPath("."), "repo"), ProjectFile)))
  {
    var fs := new FileSystem(Disk({}, {}));
    var git := new AspireGit.GitProcesses((d: Disk, c: AspireGit.GitClone) =>
      Disk(d.directories + {c.path}, d.files + {paths.join(c.path, ProjectFile)}));
    GitUrl.HostUrlProjectNames();
    r := AspireGit.AddGitProject(fs, git, paths, HostGitUrl, None, ".", ProjectFile);
    started := git.started;
  }

  /**
   * The repository directory is already there but holds no project file:
   * nothing is cloned and the call fails with "not found".
   */
  method ExistingRepositoryWithoutProject(paths: PathOps)
    returns (r: Wrappers.Result<AspireGit.ProjectRegistration, AspireGit.ProjectError>, started: seq<AspireGit.GitClone>)
    ensures started == []
    ensures r == Failure(AspireGit.ProjectFolderNotFound(paths.join(paths.combine(paths.getFullPath("."), "repo"), ProjectFile)))
  {
    var fs := new FileSystem(Disk({paths.combine(paths.getFullPath("."), "repo")}, {}));
    var git := new AspireGit.GitProcesses((d: Disk, c: AspireGit.GitClone) => d);
    GitUrl.HostUrlProjectNames();
    r := AspireGit.AddGitProject(fs, git, paths, HostGitUrl, None, ".", ProjectFile);
    started := git.started;
  }
}
