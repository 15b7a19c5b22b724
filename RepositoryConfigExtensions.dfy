/**
 * The reconciler: one existence probe decides between clone, create a
 * worktree, pull-and-reset, or nothing, and the decision is carried out on
 * the config's command executor.
 */
module Reconciler {
  import opened Wrappers
  import opened Paths
  import opened Interfaces
  import opened RepositoryConfigs
  import opened ConfigBuilder

  /** What `CloneRepository` asks of the executor, given whether the repository directory exists. */
  function CloneCommands(c: RepositoryConfig, repositoryExists: bool): (cmds: seq<Command>)
    ensures |cmds| <= 1
    ensures cmds == [] <==> repositoryExists && !c.keepUpToDate
    ensures forall k :: k in cmds ==> k.Target() == c.repositoryPath && !k.AddWorktree?
    ensures forall k :: k in cmds ==> (k.Creates() <==> !repositoryExists)
    ensures forall k :: k in cmds && k.Creates() ==> k == Clone(c.gitUrl, c.repositoryPath, c.branch)
  {
    if !repositoryExists then [Clone(c.gitUrl, c.repositoryPath, c.branch)]
    else if c.keepUpToDate then [PullAndReset(c.repositoryPath)]
    else []
  }

  /** What `SetupWorktree` asks of the executor, given whether the worktree directory exists. */
  function WorktreeCommands(c: RepositoryConfig, worktreeExists: bool): (cmds: seq<Command>)
    requires c.UsesWorktree()
    ensures |cmds| <= 1
    ensures cmds == [] <==> worktreeExists && !c.keepUpToDate
    ensures forall k :: k in cmds ==> k.Target() == c.worktreePath.value && !k.Clone?
    ensures forall k :: k in cmds ==> (k.Creates() <==> !worktreeExists)
    ensures forall k :: k in cmds && k.Creates() ==>
      k == AddWorktree(c.repositoryPath, c.worktreePath.value, c.branch)
  {
    if !worktreeExists then [AddWorktree(c.repositoryPath, c.worktreePath.value, c.branch)]
    else if c.keepUpToDate then [PullAndReset(c.worktreePath.value)]
    else []
  }

  /**
   * What `SetupRepository` asks of the executor, given whether the probed
   * directory exists: at most one command, aimed at the probed directory;
   * a clone only when no worktree is asked for.
   */
  function SetupCommands(c: RepositoryConfig, present: bool): (cmds: seq<Command>)
    ensures |cmds| <= 1
    ensures cmds == [] <==> present && !c.keepUpToDate
    ensures forall k :: k in cmds ==> k.Target() == c.ProbedPath()
    ensures forall k :: k in cmds ==> (k.Creates() <==> !present)
    ensures forall k :: k in cmds ==> (k.Clone? <==> !present && !c.UsesWorktree())
  {
    if c.UsesWorktree() then WorktreeCommands(c, present) else CloneCommands(c, present)
  }

  /**
   * The disk once every command has succeeded, under this model's own
   * assumption that a clone or a new worktree leaves its directory in place.
   */
  function After(d: Disk, cmds: seq<Command>): Disk
    decreases |cmds|
  {
    if cmds == [] then d
    else
      var d' := if cmds[0].Creates() then d.(directories := d.directories + {cmds[0].Target()}) else d;
      After(d', cmds[1..])
  }

  /**
   * Reconciling converges: after one successful round the probed directory
   * exists, a second round creates nothing, and without keep-up-to-date it
   * does nothing at all.
   */
  lemma SetupConverges(c: RepositoryConfig, d: Disk)
    ensures var d' := After(d, SetupCommands(c, c.ProbedPath() in d.directories));
      && c.ProbedPath() in d'.directories
      && (forall k :: k in SetupCommands(c, c.ProbedPath() in d'.directories) ==> !k.Creates())
      && (!c.keepUpToDate ==> SetupCommands(c, c.ProbedPath() in d'.directories) == [])
  {
    var cmds := SetupCommands(c, c.ProbedPath() in d.directories);
    if cmds != [] {
      assert cmds == [cmds[0]];
      assert cmds[1..] == [];
    }
  }

  /** `InitializeRepository`'s builder fields: the URL first, then the caller's setter calls. */
  function Configured(repositoryUrl: string, configure: seq<BuilderCall>): BuilderState {
    Configure(Defaults, [BuilderCall.WithGitUrl(repositoryUrl)] + configure)
  }

  /** Clone path: probe the repository directory, then clone, pull-and-reset or do nothing. */
  method CloneRepository(config: RepositoryConfig) returns (r: RepositoryConfig)
    modifies config.fileSystem`probes, config.processCommandsExecutor`calls
    ensures r == config
    ensures config.fileSystem.probes == old(config.fileSystem.probes) + [DirectoryProbe(config.repositoryPath)]
    ensures config.processCommandsExecutor.calls ==
      old(config.processCommandsExecutor.calls)
      + CloneCommands(config, config.repositoryPath in config.fileSystem.disk.directories)
  {
    var repositoryExists := config.fileSystem.DirectoryExists(config.repositoryPath);
    if !repositoryExists {
      config.processCommandsExecutor.CloneGitRepository(config.gitUrl, config.repositoryPath, config.branch);
      return config;
    }
    if config.keepUpToDate {
      config.processCommandsExecutor.PullAndResetRepository(config.repositoryPath);
    }
    return config;
  }

  /** Worktree path: probe the worktree directory only, then add the worktree, pull-and-reset it or do nothing. */
  method SetupWorktree(config: RepositoryConfig) returns (r: RepositoryConfig)
    requires config.UsesWorktree()
    modifies config.fileSystem`probes, config.processCommandsExecutor`calls
    ensures r == config
    ensures config.fileSystem.probes == old(config.fileSystem.probes) + [DirectoryProbe(config.worktreePath.value)]
    ensures config.processCommandsExecutor.calls ==
      old(config.processCommandsExecutor.calls)
      + WorktreeCommands(config, config.worktreePath.value in config.fileSystem.disk.directories)
  {
    var worktreeExists := config.fileSystem.DirectoryExists(config.worktreePath.value);
    if !worktreeExists {
      config.processCommandsExecutor.CreateWorktree(config.repositoryPath, config.worktreePath.value, config.branch);
      return config;
    }
    if config.keepUpToDate {
      config.processCommandsExecutor.PullAndResetRepository(config.worktreePath.value);
    }
    return config;
  }

  /** A non-empty worktree path selects the worktree path; anything else the clone path. */
  method SetupRepository(config: RepositoryConfig) returns (r: RepositoryConfig)
    modifies config.fileSystem`probes, config.processCommandsExecutor`calls
    ensures r == config
    ensures config.fileSystem.probes == old(config.fileSystem.probes) + [DirectoryProbe(config.ProbedPath())]
    ensures config.processCommandsExecutor.calls ==
      old(config.processCommandsExecutor.calls)
      + SetupCommands(config, config.ProbedPath() in config.fileSystem.disk.directories)
  {
    if config.UsesWorktree() {
      r := SetupWorktree(config);
      return;
    }
    r := CloneRepository(config);
  }

  /** One setter call made by the caller's configuration action. */
  method Invoke(builder: RepositoryConfigBuilder, call: BuilderCall)
    modifies builder
    ensures builder.State() == Step(old(builder.State()), call)
  {
    var self: RepositoryConfigBuilder;
    match call
    case WithTargetPath(p) => self := builder.WithTargetPath(p);
    case WithDefaultBranch(b) => self := builder.WithDefaultBranch(b);
    case KeepUpToDate => self := builder.KeepUpToDate();
    case WithWorktree(w) => self := builder.WithWorktree(w);
    case WithFileSystem(fs) => self := builder.WithFileSystem(fs);
    case WithGitUrl(u) => self := builder.WithGitUrl(u);
    case WithProcessCommandExecutor(e) => self := builder.WithProcessCommandExecutor(e);
  }

  /**
   * A new builder gets the URL, then the caller's setter calls in order;
   * it is built and the result reconciled. An empty URL fails before any
   * probe or command.
   */
  method InitializeRepository(configure: seq<BuilderCall>, repositoryUrl: string, paths: PathOps, disk: Disk)
    returns (r: Result<RepositoryConfig, ConfigError>)
    modifies InjectedFileSystems(configure)`probes, InjectedExecutors(configure)`calls
    ensures var s := Configured(repositoryUrl, configure);
      && (r.Failure? <==> s.gitUrl == "")
      && (r.Failure? ==> r.error == NoRepositoryUrl)
      && (r.Success? ==> Describes(r.value, s, paths))
    ensures r.Failure? ==> unchanged(InjectedFileSystems(configure)) && unchanged(InjectedExecutors(configure))
    ensures r.Success? ==>
      var s := Configured(repositoryUrl, configure);
      && (s.fileSystem == null ==> fresh(r.value.fileSystem))
      && (s.processCommandsExecutor == null ==> fresh(r.value.processCommandsExecutor))
      && r.value.fileSystem.disk == (if s.fileSystem != null then old(s.fileSystem.disk) else disk)
      && r.value.fileSystem.probes ==
           (if s.fileSystem != null then old(s.fileSystem.probes) else [])
           + [DirectoryProbe(r.value.ProbedPath())]
      && r.value.processCommandsExecutor.calls ==
           (if s.processCommandsExecutor != null then old(s.processCommandsExecutor.calls) else [])
           + SetupCommands(r.value, r.value.ProbedPath() in r.value.fileSystem.disk.directories)
    ensures r.Success? ==>
      && (forall f :: f in InjectedFileSystems(configure) && f != r.value.fileSystem ==> f.probes == old(f.probes))
      && (forall e :: e in InjectedExecutors(configure) && e != r.value.processCommandsExecutor ==> e.calls == old(e.calls))
  {
    var builder := NewConfiguredBuilder(configure, repositoryUrl);
    var built := builder.Build(paths, disk);
    if built.Failure? {
      return Failure(built.error);
    }
    CollaboratorsComeFromCalls(Step(Defaults, BuilderCall.WithGitUrl(repositoryUrl)), configure);
    ConfigureFirst(Defaults, BuilderCall.WithGitUrl(repositoryUrl), configure);
    var config := SetupRepository(built.value);
    return Success(config);
  }

  /** A new builder, given the URL and then every setter call of the caller's action, in order. */
  method NewConfiguredBuilder(configure: seq<BuilderCall>, repositoryUrl: string) returns (builder: RepositoryConfigBuilder)
    ensures fresh(builder)
    ensures builder.State() == Configured(repositoryUrl, configure)
  {
    builder := new RepositoryConfigBuilder();
    var self := builder.WithGitUrl(repositoryUrl);
    var i := 0;
    while i < |configure|
      modifies builder
      invariant 0 <= i <= |configure|
      invariant builder.State() == Configure(Defaults, [BuilderCall.WithGitUrl(repositoryUrl)] + configure[..i])
    {
      Invoke(builder, configure[i]);
      ghost var done := [BuilderCall.WithGitUrl(repositoryUrl)] + configure[..i + 1];
      assert done[..|done| - 1] == [BuilderCall.WithGitUrl(repositoryUrl)] + configure[..i];
      i := i + 1;
    }
    assert configure[..i] == configure;
  }
}
